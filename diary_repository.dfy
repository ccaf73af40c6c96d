/** The diary repository over its persisted collection. The stored JSON
    array is modelled as a sequence of records, each date as its
    millisecond time value. */
module DiaryPersistence {
  import opened Common
  import opened Ids
  import opened DiaryValues
  import opened DiaryDomain
  import opened Progress
  import opened DiaryStatistics

  datatype StoredEmotion = StoredEmotion(name: string, intensity: int)
  datatype StoredUrge = StoredUrge(name: string, intensity: int, acted: bool)

  /** One element of the persisted array. */
  datatype StoredEntry = StoredEntry(
    id: string,
    date: int,
    emotions: seq<StoredEmotion>,
    urges: seq<StoredUrge>,
    skillsUsed: seq<string>,
    notes: string)

  function RecordId(rec: StoredEntry): string { rec.id }

  /** A record as `save` writes it: the fields of a valid diary entry. */
  predicate WellFormed(rec: StoredEntry) {
    && rec.id != ""
    && (forall e <- rec.emotions :: !IsBlank(e.name) && 0 <= e.intensity <= 10)
    && (forall u <- rec.urges :: !IsBlank(u.name) && 0 <= u.intensity <= 10)
    && (forall s <- rec.skillsUsed :: !IsBlank(s))
  }

  /** `mapToStorage`: plain fields, the date as its time value. */
  function MapToStorage(e: DiaryEntryState): (rec: StoredEntry)
    requires e.date.Time?
    ensures rec.id == e.id.ToString() && rec.date == e.date.ms && rec.notes == e.notes
    ensures |rec.emotions| == |e.emotions| && |rec.urges| == |e.urges| && |rec.skillsUsed| == |e.skillsUsed|
    ensures forall i :: 0 <= i < |e.emotions| ==>
      rec.emotions[i].name == e.emotions[i].name && rec.emotions[i].intensity == e.emotions[i].intensity
    ensures forall i :: 0 <= i < |e.urges| ==>
      && rec.urges[i].name == e.urges[i].name
      && rec.urges[i].intensity == e.urges[i].intensity
      && rec.urges[i].acted == e.urges[i].acted
    ensures forall i :: 0 <= i < |e.skillsUsed| ==> rec.skillsUsed[i] == e.skillsUsed[i].skillId
  {
    StoredEntry(
      e.id.ToString(),
      e.date.ms,
      seq(|e.emotions|, i requires 0 <= i < |e.emotions| => StoredEmotion(e.emotions[i].name, e.emotions[i].intensity)),
      seq(|e.urges|, i requires 0 <= i < |e.urges| =>
        StoredUrge(e.urges[i].name, e.urges[i].intensity, e.urges[i].acted)),
      seq(|e.skillsUsed|, i requires 0 <= i < |e.skillsUsed| => e.skillsUsed[i].skillId),
      e.notes)
  }

  /** The argument `mapToDomain` passes to `DiaryEntry.create`. */
  function PropsOf(rec: StoredEntry): EntryProps {
    EntryProps(
      Some(rec.id),
      Time(rec.date),
      Some(seq(|rec.emotions|, i requires 0 <= i < |rec.emotions| =>
        RawEmotion(rec.emotions[i].name, rec.emotions[i].intensity as real))),
      Some(seq(|rec.urges|, i requires 0 <= i < |rec.urges| =>
        RawUrge(rec.urges[i].name, rec.urges[i].intensity as real, rec.urges[i].acted))),
      Some(rec.skillsUsed),
      Some(rec.notes))
  }

  /** `mapToDomain`: re-create the entity through `DiaryEntry.create`, which
      throws on a record that is not well formed. */
  function MapToDomain(rec: StoredEntry, rnd: nat -> Nibble): Result<DiaryEntryState> {
    CreateEntry(PropsOf(rec), rnd)
  }

  /** The entity a well-formed record stands for, field by field. */
  function Decode(rec: StoredEntry): (e: DiaryEntryState)
    requires WellFormed(rec)
    ensures e.Valid()
  {
    DiaryEntryState(
      UniqueId(rec.id),
      Time(rec.date),
      seq(|rec.emotions|, i requires 0 <= i < |rec.emotions| => Emotion(rec.emotions[i].name, rec.emotions[i].intensity)),
      seq(|rec.urges|, i requires 0 <= i < |rec.urges| =>
        Urge(rec.urges[i].name, rec.urges[i].intensity, rec.urges[i].acted)),
      seq(|rec.skillsUsed|, i requires 0 <= i < |rec.skillsUsed| => SkillReference(rec.skillsUsed[i])),
      rec.notes)
  }

  /** `mapToDomain` succeeds on every well-formed record, whatever the random
      source, and yields `Decode(rec)`: the stored id is kept. */
  lemma {:induction false} MapToDomainDecodes(rec: StoredEntry, rnd: nat -> Nibble)
    requires WellFormed(rec)
    ensures MapToDomain(rec, rnd) == Ok(Decode(rec))
  {
    var p := PropsOf(rec);
    var d := Decode(rec);
    forall e <- p.emotions.GetOr([]) ensures ToEmotion(e).Ok? {
      var k :| 0 <= k < |rec.emotions| && e == p.emotions.value[k];
      assert rec.emotions[k] in rec.emotions;
      assert (rec.emotions[k].intensity as real).Floor == rec.emotions[k].intensity;
    }
    forall u <- p.urges.GetOr([]) ensures ToUrge(u).Ok? {
      var k :| 0 <= k < |rec.urges| && u == p.urges.value[k];
      assert rec.urges[k] in rec.urges;
      assert (rec.urges[k].intensity as real).Floor == rec.urges[k].intensity;
    }
    var r := MapToDomain(rec, rnd);
    assert r.Ok?;
    assert r.value.emotions == d.emotions;
    assert r.value.urges == d.urges;
    assert r.value.skillsUsed == d.skillsUsed;
  }

  /** Storing a valid entity and reading it back gives the same entity, and
      the stored record is well formed. */
  lemma StorageRoundTrip(e: DiaryEntryState, rnd: nat -> Nibble)
    requires e.Valid()
    ensures WellFormed(MapToStorage(e))
    ensures Decode(MapToStorage(e)) == e
    ensures MapToDomain(MapToStorage(e), rnd) == Ok(e)
  {
    var rec := MapToStorage(e);
    assert forall k :: 0 <= k < |e.emotions| ==> e.emotions[k].Valid();
    assert forall k :: 0 <= k < |e.urges| ==> e.urges[k].Valid();
    assert forall k :: 0 <= k < |e.skillsUsed| ==> e.skillsUsed[k].Valid();
    assert WellFormed(rec);
    var d := Decode(rec);
    assert d.emotions == e.emotions;
    assert d.urges == e.urges;
    assert d.skillsUsed == e.skillsUsed;
    MapToDomainDecodes(rec, rnd);
  }

  /** Reading a well-formed record and storing it again gives the same record. */
  lemma StorageRoundTripRecord(rec: StoredEntry)
    requires WellFormed(rec)
    ensures MapToStorage(Decode(rec)) == rec
  {
    var r := MapToStorage(Decode(rec));
    assert r.emotions == rec.emotions;
    assert r.urges == rec.urges;
    assert r.skillsUsed == rec.skillsUsed;
  }

  /** `map(e => this.mapToDomain(e))` over well-formed records. */
  function DecodeAll(recs: seq<StoredEntry>): (r: seq<DiaryEntryState>)
    requires forall x <- recs :: WellFormed(x)
    ensures |r| == |recs|
    ensures forall i :: 0 <= i < |recs| ==> r[i].Valid() && MapToStorage(r[i]) == recs[i]
  {
    if recs == [] then []
    else
      StorageRoundTripRecord(recs[0]);
      [Decode(recs[0])] + DecodeAll(recs[1..])
  }

  /** `new Date(e.date) >= startDate` and `<= endDate` for whichever bounds are
      given. Every comparison with an invalid date is false, so an invalid
      bound selects nothing. */
  predicate InRange(rec: StoredEntry, startDate: Option<Date>, endDate: Option<Date>) {
    DateInRange(rec.date, startDate, endDate)
  }

  /** A time value passes both `filter` calls. */
  predicate DateInRange(d: int, startDate: Option<Date>, endDate: Option<Date>) {
    && (startDate.None? || (startDate.value.Time? && startDate.value.ms <= d))
    && (endDate.None? || (endDate.value.Time? && d <= endDate.value.ms))
  }

  /** The records dated `d`, in list order: what a stable sort by date must not reorder. */
  function WithDate(s: seq<StoredEntry>, d: int): seq<StoredEntry> {
    if s == [] then []
    else if s[0].date == d then [s[0]] + WithDate(s[1..], d)
    else WithDate(s[1..], d)
  }

  lemma WithDateCons(x: StoredEntry, s: seq<StoredEntry>, d: int)
    ensures WithDate([x] + s, d) == if x.date == d then [x] + WithDate(s, d) else WithDate(s, d)
  {
    assert ([x] + s)[1..] == s;
  }

  /** The two `filter` calls: the records in range, in stored order. */
  function Filter(records: seq<StoredEntry>, startDate: Option<Date>, endDate: Option<Date>): (r: seq<StoredEntry>)
    ensures forall x <- r :: InRange(x, startDate, endDate)
    ensures forall x :: InRange(x, startDate, endDate) ==> multiset(r)[x] == multiset(records)[x]
    ensures multiset(r) <= multiset(records)
  {
    if records == [] then []
    else
      var rest := Filter(records[1..], startDate, endDate);
      assert records == [records[0]] + records[1..];
      if InRange(records[0], startDate, endDate) then [records[0]] + rest else rest
  }

  /** Filtering keeps all the records of an in-range date, in stored order, and none of any other date. */
  lemma {:induction false} FilterKeepsTies(records: seq<StoredEntry>, startDate: Option<Date>, endDate: Option<Date>, d: int)
    ensures WithDate(Filter(records, startDate, endDate), d) ==
      if DateInRange(d, startDate, endDate) then WithDate(records, d) else []
  {
    if records != [] {
      FilterKeepsTies(records[1..], startDate, endDate, d);
      var rest := Filter(records[1..], startDate, endDate);
      if InRange(records[0], startDate, endDate) {
        WithDateCons(records[0], rest, d);
      }
    }
  }

  /** Dates never increase along the list. */
  predicate NewestFirst(s: seq<StoredEntry>) {
    forall i, j :: 0 <= i < j < |s| ==> s[i].date >= s[j].date
  }

  /** A record no older than every record of a newest-first list may go in front of it. */
  lemma PrependNewest(y: StoredEntry, t: seq<StoredEntry>)
    requires NewestFirst(t)
    requires forall j :: 0 <= j < |t| ==> t[j].date <= y.date
    ensures NewestFirst([y] + t)
  {
    forall i, j | 0 <= i < j < |[y] + t| ensures ([y] + t)[i].date >= ([y] + t)[j].date {
      if i > 0 {
        assert ([y] + t)[i] == t[i - 1];
      }
      assert ([y] + t)[j] == t[j - 1];
    }
  }

  /** Put `x` before the first record that is not newer than it. */
  function Insert(x: StoredEntry, s: seq<StoredEntry>): (r: seq<StoredEntry>)
    requires NewestFirst(s)
    ensures NewestFirst(r)
    ensures multiset(r) == multiset(s) + multiset{x}
  {
    if s == [] then [x]
    else if x.date >= s[0].date then
      assert forall j :: 0 <= j < |s| ==> s[j].date <= s[0].date;
      PrependNewest(x, s);
      [x] + s
    else
      var t := Insert(x, s[1..]);
      assert s == [s[0]] + s[1..];
      assert forall j :: 0 <= j < |t| ==> t[j].date <= s[0].date by {
        forall j | 0 <= j < |t| ensures t[j].date <= s[0].date {
          assert t[j] in multiset(t);
          if t[j] != x {
            assert t[j] in multiset(s[1..]);
          }
        }
      }
      PrependNewest(s[0], t);
      assert multiset([s[0]] + t) == multiset{s[0]} + multiset(t);
      assert multiset(s) == multiset{s[0]} + multiset(s[1..]);
      [s[0]] + t
  }

  /** `x` goes in front of every record with its own date and behind every
      newer one, so the other records of each date keep their order. */
  lemma {:induction false} InsertKeepsTies(x: StoredEntry, s: seq<StoredEntry>, d: int)
    requires NewestFirst(s)
    ensures WithDate(Insert(x, s), d) == if x.date == d then [x] + WithDate(s, d) else WithDate(s, d)
  {
    if s == [] {
      WithDateCons(x, [], d);
    } else if x.date >= s[0].date {
      WithDateCons(x, s, d);
    } else {
      var t := Insert(x, s[1..]);
      InsertKeepsTies(x, s[1..], d);
      WithDateCons(s[0], t, d);
    }
  }

  /** `sort((a, b) => b.date - a.date)`: a stable sort, newest first; records
      with the same date keep their stored order. */
  function SortNewestFirst(s: seq<StoredEntry>): (r: seq<StoredEntry>)
    ensures NewestFirst(r)
    ensures multiset(r) == multiset(s)
  {
    if s == [] then []
    else
      assert s == [s[0]] + s[1..];
      Insert(s[0], SortNewestFirst(s[1..]))
  }

  /** The sort is stable: the records of each date come out in the order they went in. */
  lemma {:induction false} SortKeepsTies(s: seq<StoredEntry>, d: int)
    ensures WithDate(SortNewestFirst(s), d) == WithDate(s, d)
  {
    if s != [] {
      SortKeepsTies(s[1..], d);
      InsertKeepsTies(s[0], SortNewestFirst(s[1..]), d);
    }
  }

  function Min(a: int, b: int): int { if a < b then a else b }

  /** `if (limit) slice(0, limit)`: an absent or zero limit keeps everything,
      a positive one keeps at most `limit` from the front, and a negative one
      (as `slice` reads it) drops `-limit` from the end. */
  function Truncate(s: seq<StoredEntry>, limit: Option<int>): (r: seq<StoredEntry>)
    ensures |r| <= |s| && r == s[..|r|]
    ensures limit.None? || limit.value == 0 ==> r == s
    ensures limit.Some? && limit.value > 0 ==> |r| == Min(limit.value, |s|)
  {
    if limit.None? || limit.value == 0 then s
    else if limit.value > 0 then s[..Min(limit.value, |s|)]
    else if |s| + limit.value <= 0 then []
    else s[..|s| + limit.value]
  }

  class DiaryRepository {
    /** The persisted collection, in storage order. */
    var records: seq<StoredEntry>

    /** Only `save` writes records, and it writes valid entries. */
    ghost predicate Valid()
      reads this
    {
      forall rec <- records :: WellFormed(rec)
    }

    /** A repository over an empty store. */
    constructor ()
      ensures Valid() && records == []
    {
      records := [];
    }

    /** The records in range, newest first: what `findByDateRange` returns
        before the limit is applied. */
    function Candidates(startDate: Option<Date>, endDate: Option<Date>): (r: seq<StoredEntry>)
      reads this
      ensures NewestFirst(r)
      ensures forall x <- r :: InRange(x, startDate, endDate)
      ensures forall x :: InRange(x, startDate, endDate) ==> multiset(r)[x] == multiset(records)[x]
      ensures multiset(r) <= multiset(records)
      ensures forall d :: WithDate(r, d) == if DateInRange(d, startDate, endDate) then WithDate(records, d) else []
    {
      var f := Filter(records, startDate, endDate);
      var r := SortNewestFirst(f);
      assert forall d :: WithDate(r, d) == if DateInRange(d, startDate, endDate) then WithDate(records, d) else [] by {
        forall d ensures WithDate(r, d) == if DateInRange(d, startDate, endDate) then WithDate(records, d) else [] {
          SortKeepsTies(f, d);
          FilterKeepsTies(records, startDate, endDate, d);
        }
      }
      assert forall x <- r :: InRange(x, startDate, endDate) by {
        forall x <- r ensures InRange(x, startDate, endDate) {
          assert x in multiset(r);
          assert x in multiset(f);
        }
      }
      r
    }

    /** `findByDateRange`: the entries within the given bounds, newest first,
        cut to `limit`; each one is the entity its record stands for. */
    function FindByDateRange(startDate: Option<Date>, endDate: Option<Date>, limit: Option<int>): (r: seq<DiaryEntryState>)
      reads this
      requires Valid()
      ensures |r| <= |Candidates(startDate, endDate)|
      ensures forall i :: 0 <= i < |r| ==> r[i].Valid() && MapToStorage(r[i]) == Candidates(startDate, endDate)[i]
      ensures limit.None? || limit.value == 0 ==> |r| == |Candidates(startDate, endDate)|
      ensures limit.Some? && limit.value > 0 ==> |r| == Min(limit.value, |Candidates(startDate, endDate)|)
    {
      var all := Candidates(startDate, endDate);
      var sel := Truncate(all, limit);
      assert forall x <- sel :: WellFormed(x) by {
        forall x <- sel ensures WellFormed(x) {
          assert x in all;
          assert x in multiset(all);
          assert x in multiset(records);
        }
      }
      DecodeAll(sel)
    }

    /** `findByDate`: the range query over the day's first and last
        millisecond, computed by the caller in local time. */
    function FindByDate(dayStart: Date, dayEnd: Date): (r: seq<DiaryEntryState>)
      reads this
      requires Valid()
      ensures |r| == |Filter(records, Some(dayStart), Some(dayEnd))|
      ensures forall e <- r :: dayStart.Time? && dayEnd.Time? && e.date.Time? && dayStart.ms <= e.date.ms <= dayEnd.ms
      ensures r == FindByDateRange(Some(dayStart), Some(dayEnd), None)
    {
      var r := FindByDateRange(Some(dayStart), Some(dayEnd), None);
      RangeQueryBounds(this, Some(dayStart), Some(dayEnd), None);
      assert |multiset(Candidates(Some(dayStart), Some(dayEnd)))| == |multiset(Filter(records, Some(dayStart), Some(dayEnd)))|;
      r
    }

    /** `findById`: the entity of the first record with the id, or nothing. */
    function FindById(id: UniqueId): (r: Option<DiaryEntryState>)
      reads this
      requires Valid()
      ensures r.None? <==> !HasKey(records, RecordId, id.value)
      ensures r.Some? ==>
        && r.value.Valid() && r.value.id == id
        && MapToStorage(r.value) == records[IndexOf(records, RecordId, id.value)]
    {
      var i := IndexOf(records, RecordId, id.value);
      if i == -1 then None
      else
        assert records[i] in records;
        StorageRoundTripRecord(records[i]);
        Some(Decode(records[i]))
    }

    /** `save`: replace the record with the entity's id where it stands, or
        append; `failure` is the storage write's error, if it fails, and then
        the store is unchanged. After a successful save, `findById` returns
        the saved entity. */
    method Save(entry: DiaryEntry, failure: Option<string>) returns (r: Outcome)
      requires Valid() && entry.Valid()
      modifies this`records
      ensures Valid()
      ensures r.Fail? <==> failure.Some?
      ensures failure.Some? ==> r == Fail(failure.value) && records == old(records)
      ensures failure.None? ==> records == Upsert(old(records), MapToStorage(entry.State()), RecordId)
      ensures failure.None? ==> FindById(entry.id) == Some(entry.State())
      ensures failure.None? && UniqueKeys(old(records), RecordId) ==> UniqueKeys(records, RecordId)
    {
      var rec := MapToStorage(entry.State());
      StorageRoundTrip(entry.State(), _ => 0);
      var i := IndexOf(records, RecordId, rec.id);
      var updated := if i >= 0 then records[i := rec] else records + [rec];
      if failure.Some? {
        return Fail(failure.value);
      }
      ghost var before := records;
      records := updated;
      UpsertFindsNew(before, rec, RecordId);
      if UniqueKeys(before, RecordId) {
        UpsertKeepsKeysUnique(before, rec, RecordId);
      }
      return Pass;
    }

    /** `delete`: drop every record with the id, keeping the others in order;
        afterwards `findById` finds nothing. */
    method Delete(id: UniqueId, failure: Option<string>) returns (r: Outcome)
      requires Valid()
      modifies this`records
      ensures Valid()
      ensures r.Fail? <==> failure.Some?
      ensures failure.Some? ==> r == Fail(failure.value) && records == old(records)
      ensures failure.None? ==> records == RemoveAllKey(old(records), RecordId, id.value)
      ensures failure.None? ==> FindById(id).None?
      ensures failure.None? ==>
        forall rec :: RecordId(rec) != id.value ==> multiset(records)[rec] == multiset(old(records))[rec]
    {
      var filtered := RemoveAllKey(records, RecordId, id.value);
      forall rec | RecordId(rec) != id.value
        ensures multiset(filtered)[rec] == multiset(records)[rec]
      {
        RemoveAllKeyCounts(records, RecordId, id.value, rec);
      }
      if failure.Some? {
        return Fail(failure.value);
      }
      records := filtered;
      return Pass;
    }

    /** `getEmotionStats`: the statistics of the entries the range query
        returns, newest first. */
    method GetEmotionStats(startDate: Date, endDate: Date) returns (stats: map<string, EmotionTrend>)
      requires Valid()
      ensures stats == EmotionStats(AllEmotions(FindByDateRange(Some(startDate), Some(endDate), None)))
    {
      var entries := FindByDateRange(Some(startDate), Some(endDate), None);
      stats := ComputeEmotionStats(entries);
    }

    /** `getSkillUsageStats`: the skill counts of the entries the range query returns. */
    method GetSkillUsageStats(startDate: Date, endDate: Date) returns (counts: map<string, nat>)
      requires Valid()
      ensures counts == SkillCounts(AllSkillIds(FindByDateRange(Some(startDate), Some(endDate), None)))
    {
      var entries := FindByDateRange(Some(startDate), Some(endDate), None);
      counts := CountSkillUsage(entries);
    }
  }

  /** The two `forEach` loops of `getEmotionStats`: group the intensities by
      emotion name in the order of `entries`, then give each name its mean
      and trend. */
  method ComputeEmotionStats(entries: seq<DiaryEntryState>) returns (stats: map<string, EmotionTrend>)
    ensures stats == EmotionStats(AllEmotions(entries))
  {
    var groups: map<string, seq<int>> := map[];
    var i := 0;
    while i < |entries|
      invariant 0 <= i <= |entries|
      invariant GroupsMatch(groups, AllEmotions(entries[..i]))
    {
      groups := GroupEmotions(groups, entries[i].emotions, AllEmotions(entries[..i]));
      AllEmotionsSnoc(entries, i);
      i := i + 1;
    }
    assert entries[..i] == entries;
    GroupsGiveStats(groups, AllEmotions(entries));
    stats := map n | n in groups :: EmotionTrend(n, Mean(groups[n]), TrendOf(groups[n]));
  }

  /** The inner loop: push each of one entry's emotion intensities into the
      list of its name, on top of the groups of the emotions `seen` before. */
  method GroupEmotions(groups: map<string, seq<int>>, emotions: seq<Emotion>, ghost seen: seq<Emotion>)
    returns (updated: map<string, seq<int>>)
    requires GroupsMatch(groups, seen)
    ensures GroupsMatch(updated, seen + emotions)
  {
    updated := groups;
    var j := 0;
    assert seen + emotions[..0] == seen;
    while j < |emotions|
      invariant 0 <= j <= |emotions|
      invariant GroupsMatch(updated, seen + emotions[..j])
    {
      var e := emotions[j];
      var prior := if e.name in updated then updated[e.name] else [];
      GroupEmotionStep(updated, emotions, seen, j);
      updated := updated[e.name := prior + [e.intensity]];
      j := j + 1;
    }
    assert emotions[..j] == emotions;
  }

  /** One turn of the inner loop keeps the groups in step with the emotions seen. */
  lemma GroupEmotionStep(groups: map<string, seq<int>>, emotions: seq<Emotion>, seen: seq<Emotion>, j: int)
    requires 0 <= j < |emotions|
    requires GroupsMatch(groups, seen + emotions[..j])
    ensures var e := emotions[j];
      GroupsMatch(groups[e.name := (if e.name in groups then groups[e.name] else []) + [e.intensity]],
                  seen + emotions[..j + 1])
  {
    GroupsStep(groups, seen + emotions[..j], emotions[j]);
    assert seen + emotions[..j + 1] == (seen + emotions[..j]) + [emotions[j]];
  }

  /** The two `forEach` loops of `getSkillUsageStats`: count each skill id
      referenced by `entries`. */
  method CountSkillUsage(entries: seq<DiaryEntryState>) returns (counts: map<string, nat>)
    ensures counts == SkillCounts(AllSkillIds(entries))
  {
    counts := map[];
    ghost var seen: seq<string> := [];
    var i := 0;
    while i < |entries|
      invariant 0 <= i <= |entries|
      invariant seen == AllSkillIds(entries[..i])
      invariant CountsMatch(counts, seen)
    {
      counts := CountReferences(counts, entries[i].skillsUsed, seen);
      AllSkillIdsSnoc(entries, i);
      seen := seen + IdsOf(entries[i].skillsUsed);
      i := i + 1;
    }
    assert entries[..i] == entries;
    CountsGiveStats(counts, seen);
  }

  /** The inner loop: count the ids of one entry's skill references on top
      of the counts of the ids `seen` before. */
  method CountReferences(counts: map<string, nat>, refs: seq<SkillReference>, ghost seen: seq<string>)
    returns (updated: map<string, nat>)
    requires CountsMatch(counts, seen)
    ensures CountsMatch(updated, seen + IdsOf(refs))
  {
    updated := counts;
    var j := 0;
    assert seen + IdsOf(refs[..0]) == seen;
    while j < |refs|
      invariant 0 <= j <= |refs|
      invariant CountsMatch(updated, seen + IdsOf(refs[..j]))
    {
      var id := refs[j].skillId;
      var prior := if id in updated then updated[id] else 0;
      CountReferenceStep(updated, refs, seen, j);
      updated := updated[id := prior + 1];
      j := j + 1;
    }
    assert refs[..j] == refs;
  }

  /** One turn of the inner loop keeps the counts in step with the ids seen. */
  lemma CountReferenceStep(counts: map<string, nat>, refs: seq<SkillReference>, seen: seq<string>, j: int)
    requires 0 <= j < |refs|
    requires CountsMatch(counts, seen + IdsOf(refs[..j]))
    ensures var id := refs[j].skillId;
      CountsMatch(counts[id := (if id in counts then counts[id] else 0) + 1], seen + IdsOf(refs[..j + 1]))
  {
    var id := refs[j].skillId;
    CountsStep(counts, seen + IdsOf(refs[..j]), id);
    IdsOfSnoc(refs, j);
    assert seen + IdsOf(refs[..j + 1]) == (seen + IdsOf(refs[..j])) + [id];
  }

  /** Every entry `findByDateRange` returns lies within the bounds given. */
  lemma RangeQueryBounds(repo: DiaryRepository, startDate: Option<Date>, endDate: Option<Date>, limit: Option<int>)
    requires repo.Valid()
    ensures var r := repo.FindByDateRange(startDate, endDate, limit);
      forall i :: 0 <= i < |r| ==>
        && r[i].date.Time?
        && (startDate.Some? ==> startDate.value.Time? && startDate.value.ms <= r[i].date.ms)
        && (endDate.Some? ==> endDate.value.Time? && r[i].date.ms <= endDate.value.ms)
  {
    var r := repo.FindByDateRange(startDate, endDate, limit);
    var all := repo.Candidates(startDate, endDate);
    forall i | 0 <= i < |r|
      ensures startDate.Some? ==> startDate.value.Time? && startDate.value.ms <= r[i].date.ms
      ensures endDate.Some? ==> endDate.value.Time? && r[i].date.ms <= endDate.value.ms
    {
      assert MapToStorage(r[i]) == all[i];
      assert InRange(all[i], startDate, endDate);
    }
  }

  /** The entries `findByDateRange` returns come newest first. */
  lemma RangeQueryNewestFirst(repo: DiaryRepository, startDate: Option<Date>, endDate: Option<Date>, limit: Option<int>)
    requires repo.Valid()
    ensures var r := repo.FindByDateRange(startDate, endDate, limit);
      forall i, j :: 0 <= i < j < |r| ==> r[i].date.ms >= r[j].date.ms
  {
    var r := repo.FindByDateRange(startDate, endDate, limit);
    var all := repo.Candidates(startDate, endDate);
    forall i, j | 0 <= i < j < |r| ensures r[i].date.ms >= r[j].date.ms {
      assert MapToStorage(r[i]) == all[i] && MapToStorage(r[j]) == all[j];
    }
  }

  /** None of the in-range records that the limit cut off is newer than any
      entry returned: the entries kept are the newest. */
  lemma RangeQueryKeepsNewest(repo: DiaryRepository, startDate: Option<Date>, endDate: Option<Date>, limit: Option<int>)
    requires repo.Valid()
    ensures var r := repo.FindByDateRange(startDate, endDate, limit);
      var all := repo.Candidates(startDate, endDate);
      forall i, k :: 0 <= i < |r| <= k < |all| ==> all[k].date <= r[i].date.ms
  {
    var r := repo.FindByDateRange(startDate, endDate, limit);
    var all := repo.Candidates(startDate, endDate);
    forall i, k | 0 <= i < |r| <= k < |all| ensures all[k].date <= r[i].date.ms {
      assert MapToStorage(r[i]) == all[i];
    }
  }

  /** With no limit, every stored record in range is returned: each occurs
      as often among the results as in the store. */
  lemma RangeQueryComplete(repo: DiaryRepository, startDate: Option<Date>, endDate: Option<Date>, rec: StoredEntry)
    requires repo.Valid() && InRange(rec, startDate, endDate)
    ensures var r := repo.FindByDateRange(startDate, endDate, None);
      multiset(Stored(r))[rec] == multiset(repo.records)[rec]
  {
    var r := repo.FindByDateRange(startDate, endDate, None);
    assert Stored(r) == repo.Candidates(startDate, endDate);
  }

  /** The stored form of each entity, in order. */
  function Stored(es: seq<DiaryEntryState>): (recs: seq<StoredEntry>)
    requires forall e <- es :: e.date.Time?
    ensures |recs| == |es| && forall i :: 0 <= i < |es| ==> recs[i] == MapToStorage(es[i])
  {
    seq(|es|, i requires 0 <= i < |es| => MapToStorage(es[i]))
  }
}

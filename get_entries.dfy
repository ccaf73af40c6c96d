/** The `GetDiaryEntriesQuery` and its handler: a range query on the
    repository, projected to DTOs. */
module DiaryQueries {
  import opened Common
  import opened DiaryDomain
  import opened DiaryPersistence
  import opened DiaryDtos

  datatype GetDiaryEntriesQuery = GetDiaryEntriesQuery(
    startDate: Option<Date>,
    endDate: Option<Date>,
    limit: Option<int>)
  {
    /** The query's `type` tag. */
    function Type(): string { "GetDiaryEntriesQuery" }
  }

  class GetDiaryEntriesQueryHandler {
    const diaryRepository: DiaryRepository

    constructor (diaryRepository: DiaryRepository)
      ensures this.diaryRepository == diaryRepository
    {
      this.diaryRepository := diaryRepository;
    }

    /** `handle`: the query's bounds and limit go to `findByDateRange`
        unchanged, and each entry it returns becomes its DTO, in the same
        order; so the DTOs come newest first and lie within the bounds. */
    function Handle(query: GetDiaryEntriesQuery): (r: seq<DiaryEntryDto>)
      reads diaryRepository
      requires diaryRepository.Valid()
      ensures var entries := diaryRepository.FindByDateRange(query.startDate, query.endDate, query.limit);
        |r| == |entries| && forall i :: 0 <= i < |r| ==> r[i] == FromEntity(entries[i])
      ensures forall i, j :: 0 <= i < j < |r| ==> r[i].date >= r[j].date
      ensures forall i :: 0 <= i < |r| ==>
        && (query.startDate.Some? ==> query.startDate.value.Time? && query.startDate.value.ms <= r[i].date)
        && (query.endDate.Some? ==> query.endDate.value.Time? && r[i].date <= query.endDate.value.ms)
    {
      var entries := diaryRepository.FindByDateRange(query.startDate, query.endDate, query.limit);
      RangeQueryBounds(diaryRepository, query.startDate, query.endDate, query.limit);
      RangeQueryNewestFirst(diaryRepository, query.startDate, query.endDate, query.limit);
      seq(|entries|, i requires 0 <= i < |entries| => FromEntity(entries[i]))
    }
  }

  /** A stored entry is listed by an unbounded, unlimited query: what the
      create handler saves, this handler returns. */
  lemma {:induction false} StoredEntryIsListed(handler: GetDiaryEntriesQueryHandler, e: DiaryEntryState)
    requires handler.diaryRepository.Valid() && e.Valid()
    requires MapToStorage(e) in handler.diaryRepository.records
    ensures FromEntity(e) in handler.Handle(GetDiaryEntriesQuery(None, None, None))
  {
    var repo := handler.diaryRepository;
    var entries := repo.FindByDateRange(None, None, None);
    var i := ListedIndex(repo, e);
    var r := handler.Handle(GetDiaryEntriesQuery(None, None, None));
    assert r[i] == FromEntity(entries[i]);
  }

  /** The position at which an unbounded query returns a stored entry. */
  lemma {:induction false} ListedIndex(repo: DiaryRepository, e: DiaryEntryState) returns (i: int)
    requires repo.Valid() && e.Valid()
    requires MapToStorage(e) in repo.records
    ensures 0 <= i < |repo.FindByDateRange(None, None, None)|
    ensures repo.FindByDateRange(None, None, None)[i] == e
  {
    i := CandidateIndex(repo, MapToStorage(e));
    var entries := repo.FindByDateRange(None, None, None);
    assert MapToStorage(entries[i]) == MapToStorage(e);
    StorageRoundTrip(e, _ => 0);
    StorageRoundTrip(entries[i], _ => 0);
  }

  /** The position of a stored record among the unbounded candidates. */
  lemma {:induction false} CandidateIndex(repo: DiaryRepository, rec: StoredEntry) returns (i: int)
    requires rec in repo.records
    ensures 0 <= i < |repo.Candidates(None, None)| && repo.Candidates(None, None)[i] == rec
  {
    var all := repo.Candidates(None, None);
    assert InRange(rec, None, None);
    assert multiset(repo.records)[rec] > 0;
    assert multiset(all)[rec] > 0;
    i :| 0 <= i < |all| && all[i] == rec;
  }
}

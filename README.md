# DBT diary: domain and application core in Dafny

This project models the domain and application layer of a dialectical
behaviour therapy (DBT) companion app. The layer contains:

- **The diary.** A `DiaryEntry` records one day's emotions and urges, each
  with an intensity from 0 to 10, plus the DBT skills used and free notes.
  It is built from the value objects `Emotion`, `Urge`, `SkillReference`
  and `UniqueId`.
- **The learning catalogue.** `Skill`s are grouped into `SkillModule`s, and
  an `Exercise` is a guided practice made of ordered `ExerciseStep`s.
- **Progress tracking.** This covers `Achievement`s and the `ProgressStats`
  of a user over a date range, together with its `EmotionTrend` and
  `SkillUsage` records.
- **The diary repository.** It keeps diary entries as a persisted
  collection of plain records. It offers lookup by id, range queries
  (filtered, newest first, limited), save (replace or append by id),
  delete, and two aggregations: the mean intensity and trend per emotion,
  and the use count per skill.
- **Dispatch and wiring.** A command bus and a query bus each hold one
  handler per type tag. An event bus holds a list of handlers per event
  class name. The dependency-injection container holds services by token.
- **The diary's application services.** `CreateDiaryEntryCommandHandler`
  creates, saves and publishes. `GetDiaryEntriesQueryHandler` runs a range
  query and projects the results to DTOs through `DiaryEntryDto.fromEntity`.

Modelling choices:

- **Entities are classes.** Every entity whose fields the code updates in
  place is a Dafny `class` whose `seq`, `map` and scalar fields are
  reassigned by `modifies`-framed methods.
- **Value objects are datatypes.** Value objects and records are
  datatypes, and each constructor that validates becomes a
  `Result`-returning function. A thrown `Error` becomes `Err`/`Fail`
  carrying the same message.
- **Dates** are `Time(ms)` or `InvalidDate`.
- **Numbers.** JavaScript numbers that are validated into integers are
  `real` on input. Counters and averages are `real`.
- **Blank strings.** "Blank" means empty or made only of the characters
  `String.prototype.trim` removes.
- **Parameters for things outside the model:**
  - randomness is a function `rnd` giving the nibble drawn for each UUID
    template position;
  - the clock is a parameter `now`;
  - a storage write failure is a parameter `failure`;
  - a handler's effect is a function `run` that gives its outcome.
- **Handler calls.** Every method that calls handlers also returns
  `invoked`: the handlers it ran, in order.

Module layout:

| file | module | what it holds |
|---|---|---|
| `common.dfy` | `Common` | result types, dates, blank strings, keyed-sequence operations |
| `unique_id.dfy` | `Ids` | `UniqueId` and UUID generation |
| `value_objects.dfy` | `DiaryValues` | `Emotion`, `Urge`, `SkillReference` |
| `diary_entry.dfy` | `DiaryDomain` | `DiaryEntry` |
| `exercise.dfy` | `Exercises` | `Exercise`, `ExerciseStep` |
| `skill.dfy` | `Skills` | `Skill` |
| `skill_module.dfy` | `SkillModules` | `SkillModule` |
| `achievement.dfy` | `Achievements` | `Achievement` |
| `progress_stats.dfy` | `Progress` | `ProgressStats`, `EmotionTrend`, `SkillUsage` |
| `diary_statistics.dfy` | `DiaryStatistics` | the specifications of the two aggregations |
| `diary_repository.dfy` | `DiaryPersistence` | the repository, its storage mapping and its loops |
| `command_bus.dfy` | `Commands` | the command bus |
| `query_bus.dfy` | `Queries` | the query bus |
| `event_bus.dfy` | `Events` | the event bus |
| `container.dfy` | `DependencyInjection` | the container and its single instance |
| `diary_events.dfy` | `DiaryEvents` | `DiaryEntryCreated` |
| `diary_dto.dfy` | `DiaryDtos` | `DiaryEntryDto` |
| `create_entry.dfy` | `DiaryCommands` | `CreateDiaryEntryCommand` and its handler |
| `get_entries.dfy` | `DiaryQueries` | `GetDiaryEntriesQuery` and its handler |

## Model

| member | source | states |
|---|---|---|
| Ids.GenerateUuid | src/domain/common/valueObjects/UniqueId.ts:21-29 | 36 characters, hyphens at 8/13/18/23, '4' at 14, one of 8/9/a/b at 19, lowercase hex everywhere else |
| Ids.NewUniqueId | src/domain/common/valueObjects/UniqueId.ts:8-10 | a non-empty argument is kept verbatim and returned by `toString`; an absent or empty one is replaced by a generated id; the id is never empty |
| Ids.UniqueId.Equals | src/domain/common/valueObjects/UniqueId.ts:12-15 | true exactly when the argument is present and has the same value |
| Ids.EqualsIsEquivalence | src/domain/common/valueObjects/UniqueId.ts:12-15 | `equals` is reflexive and symmetric, and false for a missing argument |
| DiaryValues.NewEmotion | src/domain/diary/valueObjects/Emotion.ts:9-31 | succeeds iff the name is not blank and the intensity is an integer in 0..10; the fields are the arguments; blank name and out-of-range messages |
| DiaryValues.Emotion.Equals | src/domain/diary/valueObjects/Emotion.ts:33-36 | true exactly when the argument is present with equal name and intensity |
| DiaryValues.NewUrge | src/domain/diary/valueObjects/Urge.ts:10-33 | succeeds iff the name is not blank and the intensity is an integer in 0..10, whatever `acted` is; the fields are the arguments |
| DiaryValues.Urge.Equals | src/domain/diary/valueObjects/Urge.ts:35-40 | true exactly when the argument is present with equal name, intensity and `acted` |
| DiaryValues.NewSkillReference | src/domain/diary/valueObjects/SkillReference.ts:8-17 | succeeds iff the id is not blank; the id is stored untrimmed |
| DiaryValues.SkillReference.Equals | src/domain/diary/valueObjects/SkillReference.ts:19-22 | true exactly when the argument is present with an identical id |
| DiaryValues.ValueObjectsRebuild | src/domain/diary/valueObjects/Emotion.ts:9-15 | a valid emotion, urge or skill reference is rebuilt unchanged from its own fields |
| DiaryValues.OutOfRangeFractionReportsRange | src/domain/diary/valueObjects/Emotion.ts:23-31 | 10.5 reports the range error (range check before integrality), 4.5 reports the integer error |
| DiaryValues.ActedDistinguishesUrges | src/domain/diary/valueObjects/Urge.ts:35-40 | two urges differing only in `acted` are not equal |
| DiaryDomain.CreateEntry | src/domain/diary/entities/DiaryEntry.ts:126-149 | succeeds iff the date is valid and every raw emotion, urge and skill id converts; the id is given or generated; lists are converted element by element in order; missing lists become empty and missing notes `''` |
| DiaryDomain.OneBadEmotionFailsCreate | src/domain/diary/entities/DiaryEntry.ts:126-142 | one invalid emotion anywhere makes creation fail |
| DiaryDomain.DiaryEntry.Create | src/domain/diary/entities/DiaryEntry.ts:126-142 | a fresh entry object holding exactly `CreateEntry`'s value, or its error |
| DiaryDomain.DiaryEntry.constructor | src/domain/diary/entities/DiaryEntry.ts:18-34 | holds the given state; the only check is the date |
| DiaryDomain.DiaryEntry.AddEmotion | src/domain/diary/entities/DiaryEntry.ts:62-71 | the emotions become replace-or-append by name; names unique before stay unique; nothing else changes |
| DiaryDomain.DiaryEntry.RemoveEmotion | src/domain/diary/entities/DiaryEntry.ts:73-80 | fails iff no emotion has the name, changing nothing; otherwise exactly the first match is spliced out |
| DiaryDomain.DiaryEntry.AddUrge | src/domain/diary/entities/DiaryEntry.ts:82-91 | replace-or-append by urge name; uniqueness of names is preserved |
| DiaryDomain.DiaryEntry.RemoveUrge | src/domain/diary/entities/DiaryEntry.ts:93-100 | fails iff the name is absent, changing nothing; otherwise removes the first match |
| DiaryDomain.DiaryEntry.AddSkillUsed | src/domain/diary/entities/DiaryEntry.ts:102-110 | add-if-absent by skill id |
| DiaryDomain.DiaryEntry.RemoveSkillUsed | src/domain/diary/entities/DiaryEntry.ts:112-119 | fails iff the id is absent; otherwise removes its first occurrence |
| DiaryDomain.DiaryEntry.UpdateNotes | src/domain/diary/entities/DiaryEntry.ts:121-123 | the notes become the argument, empty included |
| Common.IndexOf | src/domain/diary/entities/DiaryEntry.ts:63 | `findIndex`: the first position with the key, or -1 exactly when there is none |
| Common.Upsert | src/infrastructure/persistence/AsyncStorageDiaryRepository.ts:69-74 | replace-or-append: same length when the key is present, one longer otherwise, and the key is present afterwards |
| Common.RemoveAt | src/domain/exercises/entities/Exercise.ts:103 | `splice(i, 1)`: one shorter, earlier elements kept, later ones shifted down |
| Common.RemoveAllKey | src/infrastructure/persistence/AsyncStorageDiaryRepository.ts:84 | no element with the key survives, every other element does |
| Common.RemoveAllKeyCounts | src/infrastructure/persistence/AsyncStorageDiaryRepository.ts:84 | an element with the key occurs 0 times in the result; any other element occurs exactly as often as in the input |
| Common.AddIfAbsent | src/domain/diary/entities/DiaryEntry.ts:102-110 | a key already present leaves the list unchanged; an absent one appends `x` at the end |
| Common.AddIfAbsentIdempotent | src/domain/diary/entities/DiaryEntry.ts:102-110 | adding a present key changes nothing; adding twice equals adding once |
| Common.MapAll | src/domain/diary/entities/DiaryEntry.ts:135-137 | `map` with a throwing callback: succeeds iff every element converts, element by element; otherwise fails with the first failing element's error |
| Common.UpsertReplacesInPlace | src/domain/diary/entities/DiaryEntry.ts:62-71 | an existing key is overwritten at its first index and nothing else moves |
| Common.UpsertAppendsNew | src/domain/diary/entities/DiaryEntry.ts:62-71 | a new key is appended at the end |
| Common.UpsertKeepsKeysUnique | src/domain/diary/entities/DiaryEntry.ts:62-71 | replace-or-append keeps keys unique and adds exactly the new key |
| Common.UpsertFindsNew | src/infrastructure/persistence/AsyncStorageDiaryRepository.ts:65-76 | after replace-or-append, the first element with the key is the new one |
| Common.RemoveAllKeepsOrder | src/infrastructure/persistence/AsyncStorageDiaryRepository.ts:82-86 | filtering by id keeps the survivors in their original relative order |
| Exercises.NewExerciseStep | src/domain/exercises/entities/Exercise.ts:11-17 | fails iff the instruction is blank; details stored as given |
| Exercises.ValidateExercise | src/domain/exercises/entities/Exercise.ts:137-157 | passes iff title, description, category and duration are not blank and there is a step; each check's own message, the first failing check in that order deciding |
| Exercises.Exercise.constructor | src/domain/exercises/entities/Exercise.ts:34-52 | holds the validated fields, with at least one step |
| Exercises.Exercise.Create | src/domain/exercises/entities/Exercise.ts:116-134 | the steps are converted first (first blank step aborts), then `validate`; on success a fresh exercise with the given fields |
| Exercises.BlankStepFailsCreate | src/domain/exercises/entities/Exercise.ts:116-134 | one blank step instruction anywhere makes creation fail |
| Exercises.Exercise.UpdateDescription | src/domain/exercises/entities/Exercise.ts:84-89 | fails iff blank, keeping the old description |
| Exercises.Exercise.UpdateDifficulty | src/domain/exercises/entities/Exercise.ts:91-93 | the difficulty becomes the argument |
| Exercises.Exercise.AddStep | src/domain/exercises/entities/Exercise.ts:95-97 | appends; the count grows by exactly one |
| Exercises.Exercise.RemoveStep | src/domain/exercises/entities/Exercise.ts:99-105 | fails iff the index is outside [0, length); otherwise removes that step; the last step can be removed |
| Exercises.Exercise.UpdateStep | src/domain/exercises/entities/Exercise.ts:107-113 | fails iff the index is outside [0, length); otherwise changes only that index |
| Skills.ValidateSkill | src/domain/skills/entities/Skill.ts:108-120 | passes iff name and description are not blank and there is an example; messages in that order |
| Skills.Skill.constructor | src/domain/skills/entities/Skill.ts:14-28 | holds the validated fields |
| Skills.Skill.Create | src/domain/skills/entities/Skill.ts:91-105 | fails with the validation message or gives a fresh skill with the given fields |
| Skills.Skill.UpdateDescription | src/domain/skills/entities/Skill.ts:52-57 | fails iff blank, keeping the old description |
| Skills.Skill.AddExample | src/domain/skills/entities/Skill.ts:59-64 | fails iff blank; otherwise appends |
| Skills.Skill.RemoveExample | src/domain/skills/entities/Skill.ts:66-71 | fails iff the index is out of range; otherwise removes that example, possibly the last |
| Skills.Skill.AddStep | src/domain/skills/entities/Skill.ts:73-81 | fails iff blank; otherwise appends to the list, creating it, so a first step gives exactly `[step]` |
| Skills.Skill.RemoveStep | src/domain/skills/entities/Skill.ts:83-88 | fails when there is no list or the index is out of range; otherwise removes that step |
| SkillModules.ValidateModule | src/domain/skills/entities/SkillModule.ts:92-100 | passes iff name and description are not blank |
| SkillModules.SkillModule.constructor | src/domain/skills/entities/SkillModule.ts:14-26 | holds the fields; the skills are not checked for duplicate ids |
| SkillModules.SkillModule.Create | src/domain/skills/entities/SkillModule.ts:77-89 | fails with the validation message or gives a fresh module; missing skills become empty |
| SkillModules.SkillModule.GetSkillById | src/domain/skills/entities/SkillModule.ts:72-74 | none iff no skill has the id; otherwise the first skill with it |
| SkillModules.SkillModule.UpdateDescription | src/domain/skills/entities/SkillModule.ts:46-51 | fails iff blank, keeping the old description |
| SkillModules.SkillModule.AddSkill | src/domain/skills/entities/SkillModule.ts:53-61 | fails iff the id is present, changing nothing; otherwise appends, and lookup by the id then finds it; id uniqueness is preserved |
| SkillModules.SkillModule.RemoveSkill | src/domain/skills/entities/SkillModule.ts:63-70 | fails iff the id is absent; otherwise removes the first skill with it; with unique ids, lookup then finds nothing |
| Achievements.ValidateAchievement | src/domain/progress/entities/Achievement.ts:98-114 | passes iff title, description and icon are not blank and the date is valid; messages in that order |
| Achievements.Achievement.constructor | src/domain/progress/entities/Achievement.ts:15-31 | holds the validated fields |
| Achievements.Achievement.Create | src/domain/progress/entities/Achievement.ts:79-95 | the date defaults to `now` and `completed` to false; fails iff validation fails |
| Achievements.Achievement.Complete | src/domain/progress/entities/Achievement.ts:59-62 | completed, dated `now`; title and id untouched |
| Achievements.Achievement.UpdateDescription | src/domain/progress/entities/Achievement.ts:64-69 | fails iff blank, keeping the old value |
| Achievements.Achievement.UpdateIcon | src/domain/progress/entities/Achievement.ts:71-76 | fails iff blank, keeping the old value |
| Progress.ValidateStats | src/domain/progress/entities/ProgressStats.ts:165-193 | passes iff the user id is not blank, both dates are valid with start not after end, and no counter is negative; each check's own message (user id, start date, end date, order, the three counters), the first failing check in that order deciding |
| Progress.OrZero | src/domain/progress/entities/ProgressStats.ts:158-160 | `x \|\| 0`: a missing counter is zero |
| Progress.ProgressStats.constructor | src/domain/progress/entities/ProgressStats.ts:54-76 | holds the validated fields |
| Progress.ProgressStats.Create | src/domain/progress/entities/ProgressStats.ts:140-162 | missing lists become empty and missing counters zero; fails iff validation fails |
| Progress.ProgressStats.UpdateEmotionTrends | src/domain/progress/entities/ProgressStats.ts:116-118 | the list is replaced wholesale |
| Progress.ProgressStats.UpdateSkillUsage | src/domain/progress/entities/ProgressStats.ts:120-122 | the list is replaced wholesale |
| Progress.ProgressStats.IncrementDiaryEntries | src/domain/progress/entities/ProgressStats.ts:124-126 | adds exactly one and nothing else changes; counters stay non-negative and the dates ordered |
| Progress.ProgressStats.IncrementExercisesCompleted | src/domain/progress/entities/ProgressStats.ts:128-130 | adds exactly one and nothing else changes |
| Progress.ProgressStats.UpdateStreakDays | src/domain/progress/entities/ProgressStats.ts:132-137 | fails iff negative, keeping the old value; otherwise sets it exactly |
| DiaryStatistics.HalfMean | src/infrastructure/persistence/AsyncStorageDiaryRepository.ts:120-121 | the mean of a half, absent (NaN) exactly for an empty half |
| DiaryStatistics.TrendOf | src/infrastructure/persistence/AsyncStorageDiaryRepository.ts:116-132 | one value or none is stable; for two or more, increasing iff the second half's mean exceeds the first's by more than 0.5, decreasing iff not increasing and the first half's mean exceeds the second's by more than 0.5, stable otherwise |
| DiaryStatistics.EmotionStats | src/infrastructure/persistence/AsyncStorageDiaryRepository.ts:112-139 | one record per distinct emotion name, with the mean and trend of its intensities in list order |
| DiaryStatistics.SkillCounts | src/infrastructure/persistence/AsyncStorageDiaryRepository.ts:152-166 | one count per distinct skill id, equal to its number of occurrences |
| DiaryStatistics.SkillCountsSum | src/infrastructure/persistence/AsyncStorageDiaryRepository.ts:152-166 | the counts sum to the total number of skill references |
| DiaryStatistics.GroupsStep | src/infrastructure/persistence/AsyncStorageDiaryRepository.ts:103-107 | one grouping step keeps every name's intensity list equal to that name's intensities seen so far |
| DiaryStatistics.GroupsGiveStats | src/infrastructure/persistence/AsyncStorageDiaryRepository.ts:112-139 | once every emotion is grouped, mapping the groups gives exactly `EmotionStats` |
| DiaryStatistics.CountsStep | src/infrastructure/persistence/AsyncStorageDiaryRepository.ts:156-159 | one counting step keeps every count equal to the id's occurrences so far |
| DiaryStatistics.CountsGiveStats | src/infrastructure/persistence/AsyncStorageDiaryRepository.ts:163-166 | the finished counts are exactly `SkillCounts` |
| DiaryStatistics.MeanBounds | src/infrastructure/persistence/AsyncStorageDiaryRepository.ts:113 | the average lies between the least and greatest intensity |
| DiaryStatistics.SingleOccurrenceIsStable | src/infrastructure/persistence/AsyncStorageDiaryRepository.ts:116-132 | a name seen once is stable |
| DiaryStatistics.SeparatedHalvesDecreasing | src/infrastructure/persistence/AsyncStorageDiaryRepository.ts:126-129 | a first half above a second half by more than 0.5 is reported decreasing |
| DiaryStatistics.SeparatedHalvesIncreasing | src/infrastructure/persistence/AsyncStorageDiaryRepository.ts:126-127 | a second half above a first half by more than 0.5 is reported increasing |
| DiaryStatistics.RisingIntensityReportedDecreasing | src/infrastructure/persistence/AsyncStorageDiaryRepository.ts:112-132 | a strictly decreasing newest-first list (rising over time) is reported decreasing |
| DiaryStatistics.ChronologicalTrend | src/infrastructure/persistence/AsyncStorageDiaryRepository.ts:112-132 | the trend taken oldest first; stable for one value |
| DiaryStatistics.RisingIntensityChronologicallyIncreasing | src/infrastructure/persistence/AsyncStorageDiaryRepository.ts:112-132 | read oldest first, intensity that rises over time is increasing |
| DiaryStatistics.JoyWeek | src/infrastructure/persistence/AsyncStorageDiaryRepository.ts:112-132 | a week of Joy rising 4 to 8 has mean 6, is reported decreasing, and is increasing chronologically |
| DiaryPersistence.MapToStorage | src/infrastructure/persistence/AsyncStorageDiaryRepository.ts:194-210 | the record carries the id text, the date's time value, every emotion, urge and skill id in order, and the notes |
| DiaryPersistence.Decode | src/infrastructure/persistence/AsyncStorageDiaryRepository.ts:180-189 | a record written by `save` decodes to a valid entry |
| DiaryPersistence.MapToDomainDecodes | src/infrastructure/persistence/AsyncStorageDiaryRepository.ts:180-189 | `mapToDomain` of a stored record never fails and gives its decoding |
| DiaryPersistence.StorageRoundTrip | src/infrastructure/persistence/AsyncStorageDiaryRepository.ts:180-210 | `mapToDomain(mapToStorage(e))` gives back `e`: id, date, emotions, urges, skill ids and notes |
| DiaryPersistence.StorageRoundTripRecord | src/infrastructure/persistence/AsyncStorageDiaryRepository.ts:180-210 | `mapToStorage(mapToDomain(r))` gives back the stored record |
| DiaryPersistence.DecodeAll | src/infrastructure/persistence/AsyncStorageDiaryRepository.ts:46 | each record decodes, in order, to a valid entry that maps back to it |
| DiaryPersistence.Filter | src/infrastructure/persistence/AsyncStorageDiaryRepository.ts:31-37 | keeps exactly the records within the given bounds, each as often as stored |
| DiaryPersistence.Insert | src/infrastructure/persistence/AsyncStorageDiaryRepository.ts:40 | inserting into a newest-first list keeps it newest first and adds exactly one element |
| DiaryPersistence.SortNewestFirst | src/infrastructure/persistence/AsyncStorageDiaryRepository.ts:40 | the result is newest first and a permutation of the input |
| DiaryPersistence.SortKeepsTies | src/infrastructure/persistence/AsyncStorageDiaryRepository.ts:40 | the sort is stable: the records of each date come out in their stored order |
| DiaryPersistence.InsertKeepsTies | src/infrastructure/persistence/AsyncStorageDiaryRepository.ts:40 | inserting a record puts it before the records of its own date and leaves each date's other records in order |
| DiaryPersistence.FilterKeepsTies | src/infrastructure/persistence/AsyncStorageDiaryRepository.ts:31-37 | filtering keeps every record of an in-range date in stored order and drops every record of any other date |
| DiaryPersistence.Truncate | src/infrastructure/persistence/AsyncStorageDiaryRepository.ts:42-44 | `slice(0, limit)`: a prefix; absent or zero keeps all; a positive limit keeps `min(limit, n)` |
| DiaryPersistence.DiaryRepository.constructor | src/infrastructure/persistence/AsyncStorageDiaryRepository.ts:172-175 | an empty store |
| DiaryPersistence.DiaryRepository.Candidates | src/infrastructure/persistence/AsyncStorageDiaryRepository.ts:27-40 | the in-range records, newest first, each as often as stored; records with the same date keep their stored order |
| DiaryPersistence.DiaryRepository.FindByDateRange | src/infrastructure/persistence/AsyncStorageDiaryRepository.ts:27-47 | the decoded candidates in order, truncated by the limit |
| DiaryPersistence.RangeQueryBounds | src/infrastructure/persistence/AsyncStorageDiaryRepository.ts:27-37 | every result lies on or after the start date and on or before the end date, when those are given |
| DiaryPersistence.RangeQueryNewestFirst | src/infrastructure/persistence/AsyncStorageDiaryRepository.ts:39-40 | results come newest first |
| DiaryPersistence.RangeQueryKeepsNewest | src/infrastructure/persistence/AsyncStorageDiaryRepository.ts:39-44 | no in-range record the limit cut off is newer than a returned one |
| DiaryPersistence.RangeQueryComplete | src/infrastructure/persistence/AsyncStorageDiaryRepository.ts:27-47 | with no limit, every in-range record is returned as often as it is stored |
| DiaryPersistence.DiaryRepository.FindByDate | src/infrastructure/persistence/AsyncStorageDiaryRepository.ts:52-60 | the entries whose date lies within the day window: exactly the unlimited range query over that window, so every in-window record, newest first |
| DiaryPersistence.DiaryRepository.FindById | src/infrastructure/persistence/AsyncStorageDiaryRepository.ts:18-22 | none iff no record has the id; otherwise the decoding of the first record with it |
| DiaryPersistence.DiaryRepository.Save | src/infrastructure/persistence/AsyncStorageDiaryRepository.ts:65-77 | a write failure changes nothing; otherwise replace-or-append by id, after which `findById` gives the entry back; unique ids stay unique |
| DiaryPersistence.DiaryRepository.Delete | src/infrastructure/persistence/AsyncStorageDiaryRepository.ts:82-86 | a write failure changes nothing; otherwise every record with the id goes, every other record stays exactly as often as it was stored, and `findById` gives none |
| DiaryPersistence.DiaryRepository.GetEmotionStats | src/infrastructure/persistence/AsyncStorageDiaryRepository.ts:91-140 | the per-name mean and trend over the range query's emotions, in its newest-first order |
| DiaryPersistence.DiaryRepository.GetSkillUsageStats | src/infrastructure/persistence/AsyncStorageDiaryRepository.ts:145-167 | the per-id counts over the range query's skill references |
| DiaryPersistence.ComputeEmotionStats | src/infrastructure/persistence/AsyncStorageDiaryRepository.ts:99-139 | the two nested loops group the intensities by name and produce exactly `EmotionStats` |
| DiaryPersistence.GroupEmotions | src/infrastructure/persistence/AsyncStorageDiaryRepository.ts:103-107 | the inner loop pushes one entry's emotion intensities onto their names' lists, keeping each list equal to that name's intensities seen so far |
| DiaryPersistence.CountSkillUsage | src/infrastructure/persistence/AsyncStorageDiaryRepository.ts:152-161 | the outer loop produces exactly `SkillCounts` |
| DiaryPersistence.CountReferences | src/infrastructure/persistence/AsyncStorageDiaryRepository.ts:155-160 | the inner loop adds one entry's references to the counts |
| DiaryPersistence.Stored | src/infrastructure/persistence/AsyncStorageDiaryRepository.ts:194-210 | the stored form of each entry, in order |
| Commands.CommandBus.constructor | src/infrastructure/common/CommandBus.ts:10 | no handlers |
| Commands.CommandBus.RegisterHandler | src/infrastructure/common/CommandBus.ts:15-21 | stores the handler under the instance's tag, overwriting; other tags unaffected |
| Commands.CommandBus.HandlerFor | src/infrastructure/common/CommandBus.ts:27-31 | the tag's handler, or the "No handler registered for command type" error iff it has none |
| Commands.CommandBus.Dispatch | src/infrastructure/common/CommandBus.ts:26-34 | an unknown tag fails and invokes nothing; otherwise exactly that handler runs once with the command and its failure propagates |
| Queries.QueryBus.constructor | src/infrastructure/common/QueryBus.ts:10 | no handlers |
| Queries.QueryBus.RegisterHandler | src/infrastructure/common/QueryBus.ts:15-21 | stores the handler under the instance's tag, overwriting; other tags unaffected |
| Queries.QueryBus.HandlerFor | src/infrastructure/common/QueryBus.ts:27-31 | the tag's handler, or the "No handler registered for query type" error |
| Queries.QueryBus.Execute | src/infrastructure/common/QueryBus.ts:26-34 | an unknown tag fails; otherwise that handler runs once and its result is returned unchanged |
| Events.PublishOutcome | src/infrastructure/common/EventBus.ts:34 | all handlers succeed iff the publish succeeds; otherwise it fails with the first failing handler's error |
| Events.EventBus.constructor | src/infrastructure/common/EventBus.ts:9 | no subscriptions |
| Events.EventBus.SubscribersOf | src/infrastructure/common/EventBus.ts:32 | the list for a name, empty when there is none |
| Events.EventBus.Subscribe | src/infrastructure/common/EventBus.ts:14-25 | appends to the name's list, creating it; other names' lists unchanged |
| Events.EventBus.Publish | src/infrastructure/common/EventBus.ts:30-35 | every handler listed under the event's class name runs exactly once, in order, and no other; no subscribers means success with nothing run |
| DependencyInjection.Container.constructor | src/infrastructure/di/Container.ts:7 | no services |
| DependencyInjection.Container.Register | src/infrastructure/di/Container.ts:24-26 | `resolve` of the token then gives the instance, overwriting; other tokens unaffected |
| DependencyInjection.Container.Resolve | src/infrastructure/di/Container.ts:32-37 | the registered service, or "Service not registered" iff there is none |
| DependencyInjection.ContainerSlot.GetInstance | src/infrastructure/di/Container.ts:12-17 | the existing container, or a fresh empty one kept for later calls |
| DependencyInjection.GetInstanceTwice | src/infrastructure/di/Container.ts:12-17 | two calls give the same container |
| DiaryDtos.FromEntity | src/application/diary/dto/DiaryEntryDto.ts:18-34 | the id text, the date, every emotion, urge and skill id in order with their fields, and the notes |
| DiaryDtos.FromEntityInjective | src/application/diary/dto/DiaryEntryDto.ts:18-34 | the projection loses nothing: equal DTOs come from equal entries |
| DiaryCommands.CommandProps | src/application/diary/commands/CreateDiaryEntryCommandHandler.ts:23-29 | every command field and no id |
| DiaryCommands.CreatedEntryMatchesCommand | src/application/diary/commands/CreateDiaryEntryCommandHandler.ts:23-29 | the created entry has a generated id and exactly the command's date, emotions, urges (name, intensity and `acted`), skills and notes |
| DiaryCommands.InvalidCommandFails | src/application/diary/commands/CreateDiaryEntryCommandHandler.ts:23-29 | an invalid date, blank emotion name or out-of-range intensity makes creation fail |
| DiaryCommands.CreateDiaryEntryCommandHandler.constructor | src/application/diary/commands/CreateDiaryEntryCommandHandler.ts:16-19 | holds the repository and the bus |
| DiaryCommands.CreateDiaryEntryCommandHandler.Handle | src/application/diary/commands/CreateDiaryEntryCommandHandler.ts:21-37 | invalid input fails with nothing stored or published; a failed save publishes nothing; otherwise the entry is saved once, then one event carrying that entry goes to exactly the subscribers of the class name `DiaryEntryCreated` |
| DiaryQueries.GetDiaryEntriesQueryHandler.constructor | src/application/diary/queries/GetDiaryEntriesQueryHandler.ts:11 | holds the repository |
| DiaryQueries.GetDiaryEntriesQueryHandler.Handle | src/application/diary/queries/GetDiaryEntriesQueryHandler.ts:13-22 | the query's bounds and limit reach the repository unchanged; same length, element i is the DTO of entry i; newest first and within the bounds |
| DiaryQueries.StoredEntryIsListed | src/application/diary/queries/GetDiaryEntriesQueryHandler.ts:13-22 | an entry the repository holds is listed by an unbounded query |
| DiaryQueries.ListedIndex | src/infrastructure/persistence/AsyncStorageDiaryRepository.ts:27-47 | an unbounded range query returns every stored entry |
| DiaryQueries.CandidateIndex | src/infrastructure/persistence/AsyncStorageDiaryRepository.ts:27-40 | every stored record is among the unbounded candidates |

## Left out

- The user interface, the view models, the hooks and the object wiring in
  `src/infrastructure/di/setup.ts` (composition and console logging) are
  not part of this model.
- Storage reads and writes:
  - AsyncStorage is not modelled; the persisted JSON array is the field
    `records`.
  - A failed write is an input that leaves the store unchanged.
  - A failed read or malformed stored JSON is not modelled.
- Concurrency:
  - Every asynchronous step runs to completion in turn.
  - The lost update between two interleaved read-modify-write `save`s is
    not modelled.
  - `Events.EventBus.Publish` runs the handlers one after another, and its
    failure is the first failure in subscription order. `Promise.all`
    starts them all and rejects with whichever fails first in time.
- Dates:
  - A date is its millisecond time value. ISO-8601 text is not modelled
    (the DTO and the stored record carry the time value).
  - The ±8.64e15 ms range of JavaScript dates is not modelled.
  - `DiaryPersistence.DiaryRepository.FindByDate` takes the start and the
    end of the day as arguments. The local-time-zone `setHours`
    computation is not modelled.
- Numbers:
  - Intensities on input are `real`. NaN, infinities and floating-point
    rounding are not modelled.
  - Averages are exact `real` division.
  - A fractional `limit` is not modelled (it is an `int`).
  - The NaN half-average of a single occurrence is an absent value.
- Exercises.Exercise.RemoveStep: the index is an integer. A fractional or
  NaN index passes the range guard at Exercise.ts:100, and `splice` then
  removes the position it truncates to; that case is not modelled.
- Exercises.Exercise.UpdateStep: the index is an integer. A fractional or
  NaN index passes the guard and writes a non-index property, changing no
  step; that case is not modelled.
- Skills.Skill.RemoveExample: the index is an integer; the fractional or
  NaN index that `splice` truncates is not modelled.
- Skills.Skill.RemoveStep: the index is an integer; the fractional or NaN
  index that `splice` truncates is not modelled.
- Progress.ProgressStats.UpdateStreakDays: counters are `real`. A NaN
  streak passes the `< 0` guard and is stored; NaN and infinite counters
  are not modelled.
- Randomness and the clock are parameters: `rnd` and `now`.
- Iteration order:
  - The emotion and skill statistics are maps keyed by name or id.
  - The key order of `Object.entries` is not modelled.
  - Neither are inherited object keys such as `constructor` or
    `__proto__` colliding with an emotion name or a skill id. In the source,
    a skill id `constructor` finds the inherited function, skips the `= 0`
    and counts NaN, and a skill id `__proto__` drops out of the result;
    `DiaryStatistics.SkillCounts` counts both like any other id.
- Aliasing:
  - The array getters return copies and the date getters new `Date`
    objects, so those are values in the model as in the source. What is
    not represented is that the constructors of `DiaryEntry`, `Skill`,
    `Exercise`, `SkillModule` and `ProgressStats`, and
    `ProgressStats.updateEmotionTrends`/`updateSkillUsage`, keep the
    caller's arrays and `Date` objects, so the caller can later change an
    entity's contents without going through its methods. `SkillModule`
    holds its skills as references, and `getSkillById` returns the live
    object, which the model does represent.
  - The repository's query methods return entity values, not newly
    allocated objects.
- `DiaryPersistence.MapToStorage`: defined only for a valid date.
  `toISOString` on an invalid date throws, which is not modelled; every
  constructed entry has a valid date.
- Dispatch:
  - The handler objects' own behaviour is the function `run`.
  - A command, query or event class is identified by its tag or class
    name, passed as `typeOf` or `nameOf`.
  - `Commands.CommandBus.RegisterHandler` receives the instance whose tag
    it uses, rather than constructing it.
- `DependencyInjection.ContainerSlot`: the static `Container.instance`
  field is an explicit slot object, because Dafny has no static fields.

## Findings

| source | as written | input that shows it | evidently intended | confidence | as-written member | corrected member |
|---|---|---|---|---|---|---|
| src/infrastructure/persistence/AsyncStorageDiaryRepository.ts:112-132 | the intensities are collected newest first (the range query sorts at line 40). The "first half" is therefore the recent half, and rising intensity is reported as `decreasing` | Joy logged daily with intensities 4, 5, 6, 6, 6, 7, 8 (oldest to newest); the list becomes [8, 7, 6, 6, 6, 5, 4] and the trend `decreasing` | the trend of intensity over time: `increasing` here | not executed | DiaryStatistics.RisingIntensityReportedDecreasing | DiaryStatistics.RisingIntensityChronologicallyIncreasing |

`DiaryStatistics.JoyWeek` works through this input. `DiaryStatistics.ChronologicalTrend` is the corrected rule; it is the half-split rule applied oldest first.

`DiaryPersistence.DiaryRepository.GetEmotionStats` keeps the behaviour as written, so its results are what the app shows today.

/** `DiaryEntryCreated`, the domain event raised after a new entry is stored. */
module DiaryEvents {
  import opened DiaryDomain

  /** The event carries the entry object itself and the clock reading taken
      when the event was built (`occurredOn`). */
  datatype DiaryEntryCreated = DiaryEntryCreated(diaryEntry: DiaryEntry, occurredOn: int)

  /** The event's class name, which the event bus routes by. */
  const DiaryEntryCreatedName: string := "DiaryEntryCreated"

  function EventName(e: DiaryEntryCreated): string { DiaryEntryCreatedName }
}

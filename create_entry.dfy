/** The `CreateDiaryEntryCommand` and its handler: create the entry, save it,
    then announce it on the event bus. */
module DiaryCommands {
  import opened Common
  import opened Ids
  import opened DiaryValues
  import opened DiaryDomain
  import opened DiaryPersistence
  import opened DiaryEvents
  import opened Events

  datatype CreateDiaryEntryCommand = CreateDiaryEntryCommand(
    date: Date,
    emotions: seq<RawEmotion>,
    urges: seq<RawUrge>,
    skillsUsed: seq<string>,
    notes: string)
  {
    /** The command's `type` tag. */
    function Type(): string { "CreateDiaryEntryCommand" }
  }

  /** What the handler passes to `DiaryEntry.create`: every field of the
      command and no id, so a fresh one is generated. */
  function CommandProps(c: CreateDiaryEntryCommand): (p: EntryProps)
    ensures p.id.None? && p.date == c.date && p.notes == Some(c.notes)
    ensures p.emotions == Some(c.emotions) && p.urges == Some(c.urges) && p.skillsUsed == Some(c.skillsUsed)
  {
    EntryProps(None, c.date, Some(c.emotions), Some(c.urges), Some(c.skillsUsed), Some(c.notes))
  }

  /** An entry created from a command carries exactly the command's fields
      and a generated id. */
  lemma {:induction false} CreatedEntryMatchesCommand(c: CreateDiaryEntryCommand, rnd: nat -> Nibble)
    requires CreateEntry(CommandProps(c), rnd).Ok?
    ensures var e := CreateEntry(CommandProps(c), rnd).value;
      && e.id.ToString() == GenerateUuid(rnd)
      && e.date == c.date && e.notes == c.notes
      && |e.emotions| == |c.emotions| && |e.urges| == |c.urges| && |e.skillsUsed| == |c.skillsUsed|
      && (forall i :: 0 <= i < |c.emotions| ==>
            e.emotions[i].name == c.emotions[i].name && e.emotions[i].intensity as real == c.emotions[i].intensity)
      && (forall i :: 0 <= i < |c.urges| ==>
            && e.urges[i].name == c.urges[i].name
            && e.urges[i].intensity as real == c.urges[i].intensity
            && e.urges[i].acted == c.urges[i].acted)
      && (forall i :: 0 <= i < |c.skillsUsed| ==> e.skillsUsed[i].skillId == c.skillsUsed[i])
  {
    var p := CommandProps(c);
    assert p.emotions.GetOr([]) == c.emotions && p.skillsUsed.GetOr([]) == c.skillsUsed;
    assert p.urges.GetOr([]) == c.urges;
    assert p.notes.GetOr("") == c.notes;
  }

  /** A blank emotion name, an intensity outside 0..10 or an invalid date in
      the command makes creation fail. */
  lemma {:induction false} InvalidCommandFails(c: CreateDiaryEntryCommand, rnd: nat -> Nibble, k: int)
    requires c.date.InvalidDate? ||
      (0 <= k < |c.emotions| && (IsBlank(c.emotions[k].name) || c.emotions[k].intensity < 0.0 || c.emotions[k].intensity > 10.0))
    ensures CreateEntry(CommandProps(c), rnd).Err?
  {
    if c.date.Time? {
      assert ToEmotion(c.emotions[k]).Err?;
      assert c.emotions[k] in CommandProps(c).emotions.GetOr([]);
    }
  }

  class CreateDiaryEntryCommandHandler<H> {
    const diaryRepository: DiaryRepository
    const eventBus: EventBus<DiaryEntryCreated, H>

    constructor (diaryRepository: DiaryRepository, eventBus: EventBus<DiaryEntryCreated, H>)
      ensures this.diaryRepository == diaryRepository && this.eventBus == eventBus
    {
      this.diaryRepository := diaryRepository;
      this.eventBus := eventBus;
    }

    /** `handle`: create the entry (an invalid command fails here, before
        anything is stored or published), save it (a storage failure, given
        as `saveFailure`, fails here and nothing is published), then publish
        one `DiaryEntryCreated` carrying the saved entry object, stamped with
        the clock reading `now`. `run(h, ev)` is the outcome of subscriber
        `h` on `ev`; `invoked` lists the subscribers run, in order. The bus
        routes by the event's class name, so the subscribers reached are
        those of `DiaryEntryCreated`. */
    method Handle(command: CreateDiaryEntryCommand, rnd: nat -> Nibble, now: int, saveFailure: Option<string>,
                  run: (H, DiaryEntryCreated) -> Outcome)
      returns (r: Outcome, published: Option<DiaryEntryCreated>, invoked: seq<H>)
      requires diaryRepository.Valid()
      requires eventBus.nameOf == EventName
      modifies diaryRepository
      ensures diaryRepository.Valid()
      ensures CreateEntry(CommandProps(command), rnd).Err? ==>
        && r == Fail(CreateEntry(CommandProps(command), rnd).error)
        && published.None? && invoked == []
        && diaryRepository.records == old(diaryRepository.records)
      ensures CreateEntry(CommandProps(command), rnd).Ok? && saveFailure.Some? ==>
        && r == Fail(saveFailure.value)
        && published.None? && invoked == []
        && diaryRepository.records == old(diaryRepository.records)
      ensures CreateEntry(CommandProps(command), rnd).Ok? && saveFailure.None? ==>
        var created := CreateEntry(CommandProps(command), rnd).value;
        && published.Some?
        && fresh(published.value.diaryEntry)
        && published.value.diaryEntry.State() == created
        && published.value.occurredOn == now
        && diaryRepository.records == Upsert(old(diaryRepository.records), MapToStorage(created), RecordId)
        && diaryRepository.FindById(created.id) == Some(created)
        && invoked == eventBus.SubscribersOf(eventBus.nameOf(published.value))
        && invoked == eventBus.SubscribersOf(DiaryEntryCreatedName)
        && r == PublishOutcome(invoked, published.value, run)
    {
      var entry := DiaryEntry.Create(CommandProps(command), rnd);
      if entry.Err? {
        return Fail(entry.error), None, [];
      }
      var saved := diaryRepository.Save(entry.value, saveFailure);
      if saved.Fail? {
        return saved, None, [];
      }
      var event := DiaryEntryCreated(entry.value, now);
      assert eventBus.nameOf(event) == DiaryEntryCreatedName;
      r, invoked := eventBus.Publish(event, run);
      published := Some(event);
    }
  }
}

/** The `DiaryEntry` aggregate: one day's emotions, urges, skills used and notes. */
module DiaryDomain {
  import opened Common
  import opened Ids
  import opened DiaryValues

  function EmotionName(e: Emotion): string { e.name }
  function UrgeName(u: Urge): string { u.name }
  function SkillIdOf(s: SkillReference): string { s.skillId }

  /** The value held by a `DiaryEntry` object at one moment. */
  datatype DiaryEntryState = DiaryEntryState(
    id: UniqueId,
    date: Date,
    emotions: seq<Emotion>,
    urges: seq<Urge>,
    skillsUsed: seq<SkillReference>,
    notes: string)
  {
    /** The constructor rejects an invalid date; the id and the value objects
        are valid because they were built by their own constructors. */
    predicate Valid() {
      && id.Valid()
      && date.Time?
      && (forall e <- emotions :: e.Valid())
      && (forall u <- urges :: u.Valid())
      && (forall s <- skillsUsed :: s.Valid())
    }
  }

  /** The untyped input of `DiaryEntry.create`. */
  datatype RawEmotion = RawEmotion(name: string, intensity: real)
  datatype RawUrge = RawUrge(name: string, intensity: real, acted: bool)
  datatype EntryProps = EntryProps(
    id: Option<string>,
    date: Date,
    emotions: Option<seq<RawEmotion>>,
    urges: Option<seq<RawUrge>>,
    skillsUsed: Option<seq<string>>,
    notes: Option<string>)

  function ToEmotion(raw: RawEmotion): Result<Emotion> { NewEmotion(raw.name, raw.intensity) }
  function ToUrge(raw: RawUrge): Result<Urge> { NewUrge(raw.name, raw.intensity, raw.acted) }

  /** `DiaryEntry.create` followed by the constructor's `validate`: the id is
      given or generated, the raw emotions, urges and skill ids are converted in
      order (the first invalid one aborts creation), missing lists become empty,
      missing notes become `''`, and finally an invalid date is rejected. */
  function CreateEntry(props: EntryProps, rnd: nat -> Nibble): (r: Result<DiaryEntryState>)
    ensures r.Ok? <==>
      && props.date.Time?
      && (forall e <- props.emotions.GetOr([]) :: ToEmotion(e).Ok?)
      && (forall u <- props.urges.GetOr([]) :: ToUrge(u).Ok?)
      && (forall s <- props.skillsUsed.GetOr([]) :: NewSkillReference(s).Ok?)
    ensures r.Ok? ==>
      && r.value.Valid()
      && r.value.id == NewUniqueId(props.id, rnd)
      && r.value.date == props.date
      && r.value.notes == props.notes.GetOr("")
    ensures r.Ok? ==>
      var raw := props.emotions.GetOr([]);
      |r.value.emotions| == |raw| &&
      forall i :: 0 <= i < |raw| ==>
        r.value.emotions[i].name == raw[i].name && r.value.emotions[i].intensity as real == raw[i].intensity
    ensures r.Ok? ==>
      var raw := props.urges.GetOr([]);
      |r.value.urges| == |raw| &&
      forall i :: 0 <= i < |raw| ==>
        && r.value.urges[i].name == raw[i].name
        && r.value.urges[i].intensity as real == raw[i].intensity
        && r.value.urges[i].acted == raw[i].acted
    ensures r.Ok? ==>
      var raw := props.skillsUsed.GetOr([]);
      |r.value.skillsUsed| == |raw| &&
      forall i :: 0 <= i < |raw| ==> r.value.skillsUsed[i].skillId == raw[i]
  {
    var id := NewUniqueId(props.id, rnd);
    var emotions :- MapAll(props.emotions.GetOr([]), ToEmotion);
    var urges :- MapAll(props.urges.GetOr([]), ToUrge);
    var skills :- MapAll(props.skillsUsed.GetOr([]), NewSkillReference);
    if props.date.InvalidDate? then Err("Invalid date")
    else
      assert forall e <- emotions :: e.Valid() by {
        forall k | 0 <= k < |emotions| ensures emotions[k].Valid() {
          assert ToEmotion(props.emotions.GetOr([])[k]) == Ok(emotions[k]);
        }
      }
      assert forall u <- urges :: u.Valid() by {
        forall k | 0 <= k < |urges| ensures urges[k].Valid() {
          assert ToUrge(props.urges.GetOr([])[k]) == Ok(urges[k]);
        }
      }
      assert forall s <- skills :: s.Valid() by {
        forall k | 0 <= k < |skills| ensures skills[k].Valid() {
          assert NewSkillReference(props.skillsUsed.GetOr([])[k]) == Ok(skills[k]);
        }
      }
      Ok(DiaryEntryState(id, props.date, emotions, urges, skills, props.notes.GetOr("")))
  }

  /** One invalid element anywhere in the input makes the whole creation fail,
      whatever the other elements are. */
  lemma {:induction false} OneBadEmotionFailsCreate(props: EntryProps, rnd: nat -> Nibble, k: int)
    requires props.emotions.Some? && 0 <= k < |props.emotions.value|
    requires ToEmotion(props.emotions.value[k]).Err?
    ensures CreateEntry(props, rnd).Err?
  {
    assert props.emotions.value[k] in props.emotions.GetOr([]);
  }

  class DiaryEntry {
    const id: UniqueId
    const date: Date
    var emotions: seq<Emotion>
    var urges: seq<Urge>
    var skillsUsed: seq<SkillReference>
    var notes: string

    function State(): DiaryEntryState
      reads this
    {
      DiaryEntryState(id, date, emotions, urges, skillsUsed, notes)
    }

    predicate Valid()
      reads this
    {
      State().Valid()
    }

    /** The constructor after `validate` has passed. */
    constructor (s: DiaryEntryState)
      requires s.Valid()
      ensures Valid() && State() == s
    {
      id, date := s.id, s.date;
      emotions, urges, skillsUsed, notes := s.emotions, s.urges, s.skillsUsed, s.notes;
    }

    /** `DiaryEntry.create`: a new object holding `CreateEntry`'s value, or its error. */
    static method Create(props: EntryProps, rnd: nat -> Nibble) returns (r: Result<DiaryEntry>)
      ensures r.Err? <==> CreateEntry(props, rnd).Err?
      ensures r.Err? ==> r.error == CreateEntry(props, rnd).error
      ensures r.Ok? ==> fresh(r.value) && r.value.Valid() && r.value.State() == CreateEntry(props, rnd).value
    {
      var s := CreateEntry(props, rnd);
      if s.Err? {
        return Err(s.error);
      }
      var entry := new DiaryEntry(s.value);
      return Ok(entry);
    }

    /** `addEmotion`: replace the emotion with the same name where it stands, or append. */
    method AddEmotion(emotion: Emotion)
      requires Valid() && emotion.Valid()
      modifies this`emotions
      ensures Valid()
      ensures emotions == Upsert(old(emotions), emotion, EmotionName)
      ensures UniqueKeys(old(emotions), EmotionName) ==> UniqueKeys(emotions, EmotionName)
    {
      var i := IndexOf(emotions, EmotionName, emotion.name);
      if i != -1 {
        emotions := emotions[i := emotion];
      } else {
        emotions := emotions + [emotion];
      }
    }

    /** `removeEmotion`: throws when no emotion has the name, otherwise splices out the first. */
    method RemoveEmotion(name: string) returns (r: Outcome)
      requires Valid()
      modifies this`emotions
      ensures Valid()
      ensures r.Fail? <==> !HasKey(old(emotions), EmotionName, name)
      ensures r.Fail? ==>
        r.error == "Emotion with name " + name + " not found in this entry" && emotions == old(emotions)
      ensures r.Pass? ==> emotions == RemoveAt(old(emotions), IndexOf(old(emotions), EmotionName, name))
    {
      var i := IndexOf(emotions, EmotionName, name);
      if i == -1 {
        return Fail("Emotion with name " + name + " not found in this entry");
      }
      emotions := emotions[..i] + emotions[i + 1..];
      return Pass;
    }

    /** `addUrge`: replace the urge with the same name where it stands, or append. */
    method AddUrge(urge: Urge)
      requires Valid() && urge.Valid()
      modifies this`urges
      ensures Valid()
      ensures urges == Upsert(old(urges), urge, UrgeName)
      ensures UniqueKeys(old(urges), UrgeName) ==> UniqueKeys(urges, UrgeName)
    {
      var i := IndexOf(urges, UrgeName, urge.name);
      if i != -1 {
        urges := urges[i := urge];
      } else {
        urges := urges + [urge];
      }
    }

    /** `removeUrge`: throws when no urge has the name, otherwise splices out the first. */
    method RemoveUrge(name: string) returns (r: Outcome)
      requires Valid()
      modifies this`urges
      ensures Valid()
      ensures r.Fail? <==> !HasKey(old(urges), UrgeName, name)
      ensures r.Fail? ==>
        r.error == "Urge with name " + name + " not found in this entry" && urges == old(urges)
      ensures r.Pass? ==> urges == RemoveAt(old(urges), IndexOf(old(urges), UrgeName, name))
    {
      var i := IndexOf(urges, UrgeName, name);
      if i == -1 {
        return Fail("Urge with name " + name + " not found in this entry");
      }
      urges := urges[..i] + urges[i + 1..];
      return Pass;
    }

    /** `addSkillUsed`: a skill id already present is not added again. */
    method AddSkillUsed(skillRef: SkillReference)
      requires Valid() && skillRef.Valid()
      modifies this`skillsUsed
      ensures Valid()
      ensures skillsUsed == AddIfAbsent(old(skillsUsed), skillRef, SkillIdOf)
    {
      if HasKey(skillsUsed, SkillIdOf, skillRef.skillId) {
        return;
      }
      skillsUsed := skillsUsed + [skillRef];
    }

    /** `removeSkillUsed`: throws when the id is absent, otherwise splices out its first occurrence. */
    method RemoveSkillUsed(skillId: string) returns (r: Outcome)
      requires Valid()
      modifies this`skillsUsed
      ensures Valid()
      ensures r.Fail? <==> !HasKey(old(skillsUsed), SkillIdOf, skillId)
      ensures r.Fail? ==>
        r.error == "Skill with ID " + skillId + " not found in this entry" && skillsUsed == old(skillsUsed)
      ensures r.Pass? ==>
        skillsUsed == RemoveAt(old(skillsUsed), IndexOf(old(skillsUsed), SkillIdOf, skillId))
    {
      var i := IndexOf(skillsUsed, SkillIdOf, skillId);
      if i == -1 {
        return Fail("Skill with ID " + skillId + " not found in this entry");
      }
      skillsUsed := skillsUsed[..i] + skillsUsed[i + 1..];
      return Pass;
    }

    /** `updateNotes`: any string, including the empty one, is accepted. */
    method UpdateNotes(notes: string)
      requires Valid()
      modifies this`notes
      ensures Valid() && this.notes == notes
    {
      this.notes := notes;
    }
  }
}

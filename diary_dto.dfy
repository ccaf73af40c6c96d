/** `DiaryEntryDto`: the plain projection of a diary entry handed to the
    presentation layer. The date is kept as its time value; its ISO text
    rendering is not modelled. */
module DiaryDtos {
  import opened Common
  import opened Ids
  import opened DiaryValues
  import opened DiaryDomain

  datatype EmotionDto = EmotionDto(name: string, intensity: int)
  datatype UrgeDto = UrgeDto(name: string, intensity: int, acted: bool)

  datatype DiaryEntryDto = DiaryEntryDto(
    id: string,
    date: int,
    emotions: seq<EmotionDto>,
    urges: seq<UrgeDto>,
    skillsUsed: seq<string>,
    notes: string)

  /** `fromEntity`: the id as text, the date, every emotion, urge and skill id
      in the entity's order, and the notes, copied field by field. */
  function FromEntity(e: DiaryEntryState): (d: DiaryEntryDto)
    requires e.date.Time?
    ensures d.id == e.id.ToString() && d.date == e.date.ms && d.notes == e.notes
    ensures |d.emotions| == |e.emotions| &&
      forall i :: 0 <= i < |e.emotions| ==>
        d.emotions[i].name == e.emotions[i].name && d.emotions[i].intensity == e.emotions[i].intensity
    ensures |d.urges| == |e.urges| &&
      forall i :: 0 <= i < |e.urges| ==>
        && d.urges[i].name == e.urges[i].name
        && d.urges[i].intensity == e.urges[i].intensity
        && d.urges[i].acted == e.urges[i].acted
    ensures |d.skillsUsed| == |e.skillsUsed| &&
      forall i :: 0 <= i < |e.skillsUsed| ==> d.skillsUsed[i] == e.skillsUsed[i].skillId
  {
    DiaryEntryDto(
      e.id.ToString(),
      e.date.ms,
      seq(|e.emotions|, i requires 0 <= i < |e.emotions| => EmotionDto(e.emotions[i].name, e.emotions[i].intensity)),
      seq(|e.urges|, i requires 0 <= i < |e.urges| =>
        UrgeDto(e.urges[i].name, e.urges[i].intensity, e.urges[i].acted)),
      seq(|e.skillsUsed|, i requires 0 <= i < |e.skillsUsed| => e.skillsUsed[i].skillId),
      e.notes)
  }

  /** The projection loses nothing: two entries with the same DTO are the same entry. */
  lemma {:induction false} FromEntityInjective(a: DiaryEntryState, b: DiaryEntryState)
    requires a.date.Time? && b.date.Time?
    requires FromEntity(a) == FromEntity(b)
    ensures a == b
  {
    var da, db := FromEntity(a), FromEntity(b);
    assert a.emotions == b.emotions by {
      forall i | 0 <= i < |a.emotions| ensures a.emotions[i] == b.emotions[i] {
        assert da.emotions[i] == db.emotions[i];
      }
    }
    assert a.urges == b.urges by {
      forall i | 0 <= i < |a.urges| ensures a.urges[i] == b.urges[i] {
        assert da.urges[i] == db.urges[i];
      }
    }
    assert a.skillsUsed == b.skillsUsed by {
      forall i | 0 <= i < |a.skillsUsed| ensures a.skillsUsed[i] == b.skillsUsed[i] {
        assert da.skillsUsed[i] == db.skillsUsed[i];
      }
    }
  }
}

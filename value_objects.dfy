/** The diary's value objects `Emotion`, `Urge` and `SkillReference`. Each
    validates its arguments on construction and compares by value. */
module DiaryValues {
  import opened Common

  /** `Number.isInteger` on a finite number. */
  predicate IsInteger(x: real) {
    x.Floor as real == x
  }

  datatype Emotion = Emotion(name: string, intensity: int) {
    predicate Valid() {
      !IsBlank(name) && 0 <= intensity <= 10
    }

    /** `equals(emotion?)`. */
    function Equals(other: Option<Emotion>): (eq: bool)
      ensures eq <==> other == Some(this)
    {
      other.Some? && name == other.value.name && intensity == other.value.intensity
    }
  }

  datatype Urge = Urge(name: string, intensity: int, acted: bool) {
    predicate Valid() {
      !IsBlank(name) && 0 <= intensity <= 10
    }

    /** `equals(urge?)`: name, intensity and `acted` must all agree. */
    function Equals(other: Option<Urge>): (eq: bool)
      ensures eq <==> other == Some(this)
    {
      other.Some? && name == other.value.name && intensity == other.value.intensity &&
      acted == other.value.acted
    }
  }

  datatype SkillReference = SkillReference(skillId: string) {
    predicate Valid() {
      !IsBlank(skillId)
    }

    /** `equals(skillRef?)`. */
    function Equals(other: Option<SkillReference>): (eq: bool)
      ensures eq <==> other == Some(this)
    {
      other.Some? && skillId == other.value.skillId
    }
  }

  /** `new Emotion(name, intensity)`: the name check runs first, then the range
      check, then the integrality check. */
  function NewEmotion(name: string, intensity: real): (r: Result<Emotion>)
    ensures r.Ok? <==> !IsBlank(name) && 0.0 <= intensity <= 10.0 && IsInteger(intensity)
    ensures r.Ok? ==> r.value.Valid() && r.value.name == name && r.value.intensity as real == intensity
    ensures IsBlank(name) ==> r == Err("Emotion name cannot be empty")
    ensures !IsBlank(name) && (intensity < 0.0 || intensity > 10.0) ==>
      r == Err("Emotion intensity must be between 0 and 10")
  {
    if IsBlank(name) then Err("Emotion name cannot be empty")
    else if intensity < 0.0 || intensity > 10.0 then Err("Emotion intensity must be between 0 and 10")
    else if !IsInteger(intensity) then Err("Emotion intensity must be an integer")
    else Ok(Emotion(name, intensity.Floor))
  }

  /** `new Urge(name, intensity, acted)`: `acted` is not checked. */
  function NewUrge(name: string, intensity: real, acted: bool): (r: Result<Urge>)
    ensures r.Ok? <==> !IsBlank(name) && 0.0 <= intensity <= 10.0 && IsInteger(intensity)
    ensures r.Ok? ==>
      r.value.Valid() && r.value.name == name && r.value.intensity as real == intensity && r.value.acted == acted
    ensures IsBlank(name) ==> r == Err("Urge name cannot be empty")
    ensures !IsBlank(name) && (intensity < 0.0 || intensity > 10.0) ==>
      r == Err("Urge intensity must be between 0 and 10")
  {
    if IsBlank(name) then Err("Urge name cannot be empty")
    else if intensity < 0.0 || intensity > 10.0 then Err("Urge intensity must be between 0 and 10")
    else if !IsInteger(intensity) then Err("Urge intensity must be an integer")
    else Ok(Urge(name, intensity.Floor, acted))
  }

  /** `new SkillReference(skillId)`: the id is stored as given, without trimming. */
  function NewSkillReference(skillId: string): (r: Result<SkillReference>)
    ensures r.Ok? <==> !IsBlank(skillId)
    ensures r.Ok? ==> r.value.Valid() && r.value.skillId == skillId
    ensures r.Err? ==> r.error == "Skill ID cannot be empty"
  {
    if IsBlank(skillId) then Err("Skill ID cannot be empty") else Ok(SkillReference(skillId))
  }

  /** A valid value object is rebuilt unchanged from its own fields. */
  lemma {:induction false} ValueObjectsRebuild(e: Emotion, u: Urge, s: SkillReference)
    requires e.Valid() && u.Valid() && s.Valid()
    ensures NewEmotion(e.name, e.intensity as real) == Ok(e)
    ensures NewUrge(u.name, u.intensity as real, u.acted) == Ok(u)
    ensures NewSkillReference(s.skillId) == Ok(s)
  {
    assert (e.intensity as real).Floor == e.intensity;
    assert (u.intensity as real).Floor == u.intensity;
  }

  /** The range check precedes the integrality check: 10.5 reports the range error. */
  lemma OutOfRangeFractionReportsRange()
    ensures NewEmotion("Joy", 10.5) == Err("Emotion intensity must be between 0 and 10")
    ensures NewUrge("Self-harm", 10.5, false) == Err("Urge intensity must be between 0 and 10")
    ensures NewEmotion("Joy", 4.5) == Err("Emotion intensity must be an integer")
  {
    assert !IsBlank("Joy") by { assert !IsWhitespace("Joy"[0]); }
    assert !IsBlank("Self-harm") by { assert !IsWhitespace("Self-harm"[0]); }
    assert (4.5).Floor == 4;
  }

  /** Two urges that differ only in `acted` are not equal. */
  lemma ActedDistinguishesUrges(u: Urge)
    ensures !u.Equals(Some(u.(acted := !u.acted)))
  {
  }
}

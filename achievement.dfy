/** The `Achievement` entity: a milestone that can be marked completed. */
module Achievements {
  import opened Common
  import opened Ids

  /** `validate`: title, description, date, icon, in that order. */
  function ValidateAchievement(title: string, description: string, date: Date, icon: string): (r: Outcome)
    ensures r.Pass? <==> !IsBlank(title) && !IsBlank(description) && date.Time? && !IsBlank(icon)
    ensures IsBlank(title) ==> r == Fail("Achievement title cannot be empty")
    ensures !IsBlank(title) && IsBlank(description) ==> r == Fail("Achievement description cannot be empty")
    ensures !IsBlank(title) && !IsBlank(description) && date.InvalidDate? ==> r == Fail("Invalid date")
    ensures !IsBlank(title) && !IsBlank(description) && date.Time? && IsBlank(icon) ==>
      r == Fail("Achievement icon cannot be empty")
  {
    if IsBlank(title) then Fail("Achievement title cannot be empty")
    else if IsBlank(description) then Fail("Achievement description cannot be empty")
    else if date.InvalidDate? then Fail("Invalid date")
    else if IsBlank(icon) then Fail("Achievement icon cannot be empty")
    else Pass
  }

  datatype AchievementProps = AchievementProps(
    id: Option<string>,
    title: string,
    description: string,
    date: Option<Date>,
    icon: string,
    completed: Option<bool>)

  class Achievement {
    const id: UniqueId
    const title: string
    var description: string
    var date: Date
    var icon: string
    var completed: bool

    ghost predicate Valid()
      reads this
    {
      id.Valid() && ValidateAchievement(title, description, date, icon).Pass?
    }

    /** The constructor after `validate` has passed. */
    constructor (id: UniqueId, title: string, description: string, date: Date, icon: string, completed: bool)
      requires id.Valid() && ValidateAchievement(title, description, date, icon).Pass?
      ensures Valid()
      ensures this.id == id && this.title == title && this.description == description
      ensures this.date == date && this.icon == icon && this.completed == completed
    {
      this.id, this.title, this.description := id, title, description;
      this.date, this.icon, this.completed := date, icon, completed;
    }

    /** `Achievement.create`: a missing date becomes the current time `now`,
        a missing `completed` flag becomes `false`. */
    static method Create(props: AchievementProps, rnd: nat -> Nibble, now: int) returns (r: Result<Achievement>)
      ensures var v := ValidateAchievement(props.title, props.description, props.date.GetOr(Time(now)), props.icon);
        (r.Err? <==> v.Fail?) && (v.Fail? ==> r.error == v.error)
      ensures props.date.None? && !IsBlank(props.title) && !IsBlank(props.description) && !IsBlank(props.icon) ==>
        r.Ok?
      ensures r.Ok? ==>
        && fresh(r.value) && r.value.Valid()
        && r.value.id == NewUniqueId(props.id, rnd)
        && r.value.title == props.title && r.value.description == props.description
        && r.value.date == props.date.GetOr(Time(now)) && r.value.icon == props.icon
        && r.value.completed == (props.completed == Some(true))
    {
      var date := if props.date.Some? then props.date.value else Time(now);
      var v := ValidateAchievement(props.title, props.description, date, props.icon);
      if v.Fail? {
        return Err(v.error);
      }
      var completed := props.completed.Some? && props.completed.value;
      var a := new Achievement(NewUniqueId(props.id, rnd), props.title, props.description, date, props.icon, completed);
      return Ok(a);
    }

    /** `complete`: marks the achievement done and stamps it with the current
        time `now`; completing again only moves the date. */
    method Complete(now: int)
      requires Valid()
      modifies this`completed, this`date
      ensures Valid()
      ensures completed && date == Time(now)
    {
      completed := true;
      date := Time(now);
    }

    /** `updateDescription`: a blank description is rejected and the old one kept. */
    method UpdateDescription(description: string) returns (r: Outcome)
      requires Valid()
      modifies this`description
      ensures Valid()
      ensures r.Fail? <==> IsBlank(description)
      ensures r.Fail? ==>
        r.error == "Achievement description cannot be empty" && this.description == old(this.description)
      ensures r.Pass? ==> this.description == description
    {
      if IsBlank(description) {
        return Fail("Achievement description cannot be empty");
      }
      this.description := description;
      return Pass;
    }

    /** `updateIcon`: a blank icon is rejected and the old one kept. */
    method UpdateIcon(icon: string) returns (r: Outcome)
      requires Valid()
      modifies this`icon
      ensures Valid()
      ensures r.Fail? <==> IsBlank(icon)
      ensures r.Fail? ==> r.error == "Achievement icon cannot be empty" && this.icon == old(this.icon)
      ensures r.Pass? ==> this.icon == icon
    {
      if IsBlank(icon) {
        return Fail("Achievement icon cannot be empty");
      }
      this.icon := icon;
      return Pass;
    }
  }
}

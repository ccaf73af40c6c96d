/** The `Skill` entity: a DBT skill with a description, examples and optional steps. */
module Skills {
  import opened Common
  import opened Ids

  /** `validate`: name, then description, then the example list. */
  function ValidateSkill(name: string, description: string, examples: seq<string>): (r: Outcome)
    ensures r.Pass? <==> !IsBlank(name) && !IsBlank(description) && |examples| > 0
    ensures IsBlank(name) ==> r == Fail("Skill name cannot be empty")
    ensures !IsBlank(name) && IsBlank(description) ==> r == Fail("Skill description cannot be empty")
    ensures !IsBlank(name) && !IsBlank(description) && |examples| == 0 ==>
      r == Fail("Skill must have at least one example")
  {
    if IsBlank(name) then Fail("Skill name cannot be empty")
    else if IsBlank(description) then Fail("Skill description cannot be empty")
    else if |examples| == 0 then Fail("Skill must have at least one example")
    else Pass
  }

  datatype SkillProps = SkillProps(
    id: Option<string>,
    name: string,
    description: string,
    examples: seq<string>,
    steps: Option<seq<string>>)

  class Skill {
    const id: UniqueId
    const name: string
    var description: string
    var examples: seq<string>
    /** `None` until a step list is given or the first step is added. */
    var steps: Option<seq<string>>

    /** What every mutator keeps. The constructor also demands at least one
        example, but `removeExample` does not re-check it. */
    ghost predicate Valid()
      reads this
    {
      id.Valid() && !IsBlank(name) && !IsBlank(description)
    }

    /** The constructor after `validate` has passed. */
    constructor (id: UniqueId, name: string, description: string, examples: seq<string>, steps: Option<seq<string>>)
      requires id.Valid() && ValidateSkill(name, description, examples).Pass?
      ensures Valid() && |this.examples| > 0
      ensures this.id == id && this.name == name && this.description == description
      ensures this.examples == examples && this.steps == steps
    {
      this.id, this.name, this.description := id, name, description;
      this.examples, this.steps := examples, steps;
    }

    /** `Skill.create`: the id is given or generated, then the constructor validates.
        The examples themselves are not checked for blankness. */
    static method Create(props: SkillProps, rnd: nat -> Nibble) returns (r: Result<Skill>)
      ensures var v := ValidateSkill(props.name, props.description, props.examples);
        (r.Err? <==> v.Fail?) && (v.Fail? ==> r.error == v.error)
      ensures r.Ok? ==>
        && fresh(r.value) && r.value.Valid()
        && r.value.id == NewUniqueId(props.id, rnd)
        && r.value.name == props.name && r.value.description == props.description
        && r.value.examples == props.examples && r.value.steps == props.steps
    {
      var v := ValidateSkill(props.name, props.description, props.examples);
      if v.Fail? {
        return Err(v.error);
      }
      var s := new Skill(NewUniqueId(props.id, rnd), props.name, props.description, props.examples, props.steps);
      return Ok(s);
    }

    /** `updateDescription`: a blank description is rejected and the old one kept. */
    method UpdateDescription(description: string) returns (r: Outcome)
      requires Valid()
      modifies this`description
      ensures Valid()
      ensures r.Fail? <==> IsBlank(description)
      ensures r.Fail? ==> r.error == "Skill description cannot be empty" && this.description == old(this.description)
      ensures r.Pass? ==> this.description == description
    {
      if IsBlank(description) {
        return Fail("Skill description cannot be empty");
      }
      this.description := description;
      return Pass;
    }

    /** `addExample`: a blank example is rejected, any other is appended. */
    method AddExample(example: string) returns (r: Outcome)
      requires Valid()
      modifies this`examples
      ensures Valid()
      ensures r.Fail? <==> IsBlank(example)
      ensures r.Fail? ==> r.error == "Example cannot be empty" && examples == old(examples)
      ensures r.Pass? ==> examples == old(examples) + [example]
    {
      if IsBlank(example) {
        return Fail("Example cannot be empty");
      }
      examples := examples + [example];
      return Pass;
    }

    /** `removeExample`: only the index is checked, so the last example can go. */
    method RemoveExample(index: int) returns (r: Outcome)
      requires Valid()
      modifies this`examples
      ensures Valid()
      ensures r.Fail? <==> index < 0 || index >= |old(examples)|
      ensures r.Fail? ==> r.error == "Invalid example index" && examples == old(examples)
      ensures r.Pass? ==> examples == RemoveAt(old(examples), index)
    {
      if index < 0 || index >= |examples| {
        return Fail("Invalid example index");
      }
      examples := examples[..index] + examples[index + 1..];
      return Pass;
    }

    /** `addStep`: a blank step is rejected; otherwise the step list is created
        if it was missing and the step appended. */
    method AddStep(step: string) returns (r: Outcome)
      requires Valid()
      modifies this`steps
      ensures Valid()
      ensures r.Fail? <==> IsBlank(step)
      ensures r.Fail? ==> r.error == "Step cannot be empty" && steps == old(steps)
      ensures r.Pass? ==> steps == Some(old(steps).GetOr([]) + [step])
      ensures r.Pass? && old(steps).None? ==> steps == Some([step])
    {
      if IsBlank(step) {
        return Fail("Step cannot be empty");
      }
      var current := if steps.Some? then steps.value else [];
      assert steps.None? ==> current + [step] == [step];
      steps := Some(current + [step]);
      return Pass;
    }

    /** `removeStep`: fails when there is no step list or the index is out of
        range; removing the last step leaves an empty list, not a missing one. */
    method RemoveStep(index: int) returns (r: Outcome)
      requires Valid()
      modifies this`steps
      ensures Valid()
      ensures r.Fail? <==> old(steps).None? || index < 0 || index >= |old(steps).value|
      ensures r.Fail? ==> r.error == "Invalid step index" && steps == old(steps)
      ensures r.Pass? ==> steps.Some? && steps.value == RemoveAt(old(steps).value, index)
    {
      if steps.None? || index < 0 || index >= |steps.value| {
        return Fail("Invalid step index");
      }
      steps := Some(steps.value[..index] + steps.value[index + 1..]);
      return Pass;
    }
  }
}

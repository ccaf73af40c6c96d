/** The `Exercise` entity (a guided practice with ordered steps) and its
    `ExerciseStep` value object. */
module Exercises {
  import opened Common
  import opened Ids

  datatype ExerciseStep = ExerciseStep(instruction: string, details: Option<string>) {
    predicate Valid() {
      !IsBlank(instruction)
    }
  }

  /** `new ExerciseStep(instruction, details?)`. */
  function NewExerciseStep(instruction: string, details: Option<string>): (r: Result<ExerciseStep>)
    ensures r.Ok? <==> !IsBlank(instruction)
    ensures r.Ok? ==> r.value.Valid() && r.value.instruction == instruction && r.value.details == details
    ensures r.Err? ==> r.error == "Exercise step instruction cannot be empty"
  {
    if IsBlank(instruction) then Err("Exercise step instruction cannot be empty")
    else Ok(ExerciseStep(instruction, details))
  }

  datatype Difficulty = Beginner | Intermediate | Advanced

  /** `validate`: the checks run in the order title, description, category,
      duration, steps, and the first that fails gives the message. */
  function ValidateExercise(title: string, description: string, category: string, duration: string,
                            steps: seq<ExerciseStep>): (r: Outcome)
    ensures r.Pass? <==>
      !IsBlank(title) && !IsBlank(description) && !IsBlank(category) && !IsBlank(duration) && |steps| > 0
    ensures IsBlank(title) ==> r == Fail("Exercise title cannot be empty")
    ensures !IsBlank(title) && IsBlank(description) ==> r == Fail("Exercise description cannot be empty")
    ensures !IsBlank(title) && !IsBlank(description) && IsBlank(category) ==>
      r == Fail("Exercise category cannot be empty")
    ensures !IsBlank(title) && !IsBlank(description) && !IsBlank(category) && IsBlank(duration) ==>
      r == Fail("Exercise duration cannot be empty")
    ensures !IsBlank(title) && !IsBlank(description) && !IsBlank(category) && !IsBlank(duration) && |steps| == 0 ==>
      r == Fail("Exercise must have at least one step")
  {
    if IsBlank(title) then Fail("Exercise title cannot be empty")
    else if IsBlank(description) then Fail("Exercise description cannot be empty")
    else if IsBlank(category) then Fail("Exercise category cannot be empty")
    else if IsBlank(duration) then Fail("Exercise duration cannot be empty")
    else if |steps| == 0 then Fail("Exercise must have at least one step")
    else Pass
  }

  datatype RawStep = RawStep(instruction: string, details: Option<string>)

  datatype ExerciseProps = ExerciseProps(
    id: Option<string>,
    title: string,
    description: string,
    category: string,
    duration: string,
    difficulty: Difficulty,
    steps: seq<RawStep>)

  function ToStep(raw: RawStep): Result<ExerciseStep> { NewExerciseStep(raw.instruction, raw.details) }

  class Exercise {
    const id: UniqueId
    const title: string
    var description: string
    const category: string
    const duration: string
    var difficulty: Difficulty
    var steps: seq<ExerciseStep>

    /** What every mutator keeps. The constructor also demands at least one
        step, but `removeStep` does not re-check it. */
    ghost predicate Valid()
      reads this
    {
      && id.Valid()
      && !IsBlank(title) && !IsBlank(description) && !IsBlank(category) && !IsBlank(duration)
      && forall s <- steps :: s.Valid()
    }

    /** The constructor after `validate` has passed. */
    constructor (id: UniqueId, title: string, description: string, category: string, duration: string,
                 difficulty: Difficulty, steps: seq<ExerciseStep>)
      requires id.Valid() && ValidateExercise(title, description, category, duration, steps).Pass?
      requires forall s <- steps :: s.Valid()
      ensures Valid()
      ensures this.id == id && this.title == title && this.description == description
      ensures this.category == category && this.duration == duration
      ensures this.difficulty == difficulty && this.steps == steps && |this.steps| > 0
    {
      this.id, this.title, this.description := id, title, description;
      this.category, this.duration, this.difficulty, this.steps := category, duration, difficulty, steps;
    }

    /** `Exercise.create`: the steps are built first, in order (a blank
        instruction aborts with its error before `validate` runs), then the
        constructor validates. */
    static method Create(props: ExerciseProps, rnd: nat -> Nibble) returns (r: Result<Exercise>)
      ensures MapAll(props.steps, ToStep).Err? ==> r == Err(MapAll(props.steps, ToStep).error)
      ensures MapAll(props.steps, ToStep).Ok? ==>
        var v := ValidateExercise(props.title, props.description, props.category, props.duration,
                                  MapAll(props.steps, ToStep).value);
        (r.Err? <==> v.Fail?) && (v.Fail? ==> r.error == v.error)
      ensures r.Ok? ==>
        && fresh(r.value) && r.value.Valid()
        && r.value.id == NewUniqueId(props.id, rnd)
        && r.value.title == props.title && r.value.description == props.description
        && r.value.category == props.category && r.value.duration == props.duration
        && r.value.difficulty == props.difficulty
        && r.value.steps == MapAll(props.steps, ToStep).value
    {
      var id := NewUniqueId(props.id, rnd);
      var steps := MapAll(props.steps, ToStep);
      if steps.Err? {
        return Err(steps.error);
      }
      var v := ValidateExercise(props.title, props.description, props.category, props.duration, steps.value);
      if v.Fail? {
        return Err(v.error);
      }
      assert forall s <- steps.value :: s.Valid() by {
        forall k | 0 <= k < |steps.value| ensures steps.value[k].Valid() {
          assert ToStep(props.steps[k]) == Ok(steps.value[k]);
        }
      }
      var e := new Exercise(id, props.title, props.description, props.category, props.duration,
                            props.difficulty, steps.value);
      return Ok(e);
    }

    /** `updateDescription`: a blank description is rejected and the old one kept. */
    method UpdateDescription(description: string) returns (r: Outcome)
      requires Valid()
      modifies this`description
      ensures Valid()
      ensures r.Fail? <==> IsBlank(description)
      ensures r.Fail? ==> r.error == "Exercise description cannot be empty" && this.description == old(this.description)
      ensures r.Pass? ==> this.description == description
    {
      if IsBlank(description) {
        return Fail("Exercise description cannot be empty");
      }
      this.description := description;
      return Pass;
    }

    /** `updateDifficulty`: always succeeds. */
    method UpdateDifficulty(difficulty: Difficulty)
      requires Valid()
      modifies this`difficulty
      ensures Valid() && this.difficulty == difficulty
    {
      this.difficulty := difficulty;
    }

    /** `addStep`: appends; the step count grows by exactly one. */
    method AddStep(step: ExerciseStep)
      requires Valid() && step.Valid()
      modifies this`steps
      ensures Valid()
      ensures steps == old(steps) + [step] && |steps| == |old(steps)| + 1
    {
      steps := steps + [step];
    }

    /** `removeStep`: only the index is checked, so the last remaining step
        can be removed and the exercise left with none. */
    method RemoveStep(index: int) returns (r: Outcome)
      requires Valid()
      modifies this`steps
      ensures Valid()
      ensures r.Fail? <==> index < 0 || index >= |old(steps)|
      ensures r.Fail? ==> r.error == "Invalid step index" && steps == old(steps)
      ensures r.Pass? ==> steps == RemoveAt(old(steps), index)
      ensures r.Pass? && |old(steps)| == 1 ==> steps == []
    {
      if index < 0 || index >= |steps| {
        return Fail("Invalid step index");
      }
      steps := steps[..index] + steps[index + 1..];
      return Pass;
    }

    /** `updateStep`: replaces exactly the step at a valid index. */
    method UpdateStep(index: int, step: ExerciseStep) returns (r: Outcome)
      requires Valid() && step.Valid()
      modifies this`steps
      ensures Valid()
      ensures r.Fail? <==> index < 0 || index >= |old(steps)|
      ensures r.Fail? ==> r.error == "Invalid step index" && steps == old(steps)
      ensures r.Pass? ==>
        |steps| == |old(steps)| && steps[index] == step &&
        forall j :: 0 <= j < |steps| && j != index ==> steps[j] == old(steps)[j]
    {
      if index < 0 || index >= |steps| {
        return Fail("Invalid step index");
      }
      steps := steps[index := step];
      return Pass;
    }
  }

  /** One blank step instruction anywhere makes `Exercise.create` fail. */
  lemma {:induction false} BlankStepFailsCreate(props: ExerciseProps, k: int)
    requires 0 <= k < |props.steps| && IsBlank(props.steps[k].instruction)
    ensures MapAll(props.steps, ToStep).Err?
  {
    assert ToStep(props.steps[k]).Err?;
  }
}

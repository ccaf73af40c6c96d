/** The `SkillModule` entity: a named group of skills keyed by skill id. */
module SkillModules {
  import opened Common
  import opened Ids
  import opened Skills

  /** The key `addSkill`, `removeSkill` and `getSkillById` compare with `UniqueId.equals`. */
  function SkillKey(s: Skill): string { s.id.value }

  /** `validate`: name first, then description. */
  function ValidateModule(name: string, description: string): (r: Outcome)
    ensures r.Pass? <==> !IsBlank(name) && !IsBlank(description)
    ensures IsBlank(name) ==> r == Fail("Module name cannot be empty")
    ensures !IsBlank(name) && IsBlank(description) ==> r == Fail("Module description cannot be empty")
  {
    if IsBlank(name) then Fail("Module name cannot be empty")
    else if IsBlank(description) then Fail("Module description cannot be empty")
    else Pass
  }

  /** Position `i` holds the first skill whose id equals `skillId` (`find`). */
  ghost predicate FirstWithId(skills: seq<Skill>, skillId: UniqueId, i: int) {
    && 0 <= i < |skills|
    && skills[i].id == skillId
    && forall j :: 0 <= j < i ==> skills[j].id != skillId
  }

  datatype ModuleProps = ModuleProps(
    id: Option<string>,
    name: string,
    description: string,
    skills: Option<seq<Skill>>)

  class SkillModule {
    const id: UniqueId
    const name: string
    var description: string
    var skills: seq<Skill>

    ghost predicate Valid()
      reads this
    {
      id.Valid() && !IsBlank(name) && !IsBlank(description)
    }

    /** The constructor after `validate` has passed. The initial skills are
        not checked for duplicate ids. */
    constructor (id: UniqueId, name: string, description: string, skills: seq<Skill>)
      requires id.Valid() && ValidateModule(name, description).Pass?
      ensures Valid()
      ensures this.id == id && this.name == name && this.description == description && this.skills == skills
    {
      this.id, this.name, this.description, this.skills := id, name, description, skills;
    }

    /** `SkillModule.create`: a missing skill list becomes empty. */
    static method Create(props: ModuleProps, rnd: nat -> Nibble) returns (r: Result<SkillModule>)
      ensures var v := ValidateModule(props.name, props.description);
        (r.Err? <==> v.Fail?) && (v.Fail? ==> r.error == v.error)
      ensures r.Ok? ==>
        && fresh(r.value) && r.value.Valid()
        && r.value.id == NewUniqueId(props.id, rnd)
        && r.value.name == props.name && r.value.description == props.description
        && r.value.skills == props.skills.GetOr([])
    {
      var v := ValidateModule(props.name, props.description);
      if v.Fail? {
        return Err(v.error);
      }
      var m := new SkillModule(NewUniqueId(props.id, rnd), props.name, props.description, props.skills.GetOr([]));
      return Ok(m);
    }

    /** `getSkillById`: the first skill whose id equals `skillId`, or nothing. */
    function GetSkillById(skillId: UniqueId): (r: Option<Skill>)
      reads this
      ensures r.None? <==> !HasKey(skills, SkillKey, skillId.value)
      ensures r.Some? ==> r.value in skills && r.value.id == skillId
      ensures r.Some? ==> exists i :: FirstWithId(skills, skillId, i) && skills[i] == r.value
    {
      var i := IndexOf(skills, SkillKey, skillId.value);
      if i == -1 then None
      else
        assert FirstWithId(skills, skillId, i);
        Some(skills[i])
    }

    /** `updateDescription`: a blank description is rejected and the old one kept. */
    method UpdateDescription(description: string) returns (r: Outcome)
      requires Valid()
      modifies this`description
      ensures Valid()
      ensures r.Fail? <==> IsBlank(description)
      ensures r.Fail? ==> r.error == "Module description cannot be empty" && this.description == old(this.description)
      ensures r.Pass? ==> this.description == description
    {
      if IsBlank(description) {
        return Fail("Module description cannot be empty");
      }
      this.description := description;
      return Pass;
    }

    /** `addSkill`: a skill whose id is already present is rejected, so the
        ids stay unique if they were; the added skill is then found by id. */
    method AddSkill(skill: Skill) returns (r: Outcome)
      requires Valid()
      modifies this`skills
      ensures Valid()
      ensures r.Fail? <==> HasKey(old(skills), SkillKey, skill.id.value)
      ensures r.Fail? ==>
        r.error == "Skill with ID " + skill.id.value + " already exists in this module" && skills == old(skills)
      ensures r.Pass? ==> skills == old(skills) + [skill] && GetSkillById(skill.id) == Some(skill)
      ensures UniqueKeys(old(skills), SkillKey) ==> UniqueKeys(skills, SkillKey)
    {
      if HasKey(skills, SkillKey, skill.id.value) {
        return Fail("Skill with ID " + skill.id.value + " already exists in this module");
      }
      skills := skills + [skill];
      assert SkillKey(skills[|skills| - 1]) == skill.id.value;
      return Pass;
    }

    /** `removeSkill`: fails when no skill has the id, otherwise splices out
        the first; with unique ids the skill is then no longer found. */
    method RemoveSkill(skillId: UniqueId) returns (r: Outcome)
      requires Valid()
      modifies this`skills
      ensures Valid()
      ensures r.Fail? <==> !HasKey(old(skills), SkillKey, skillId.value)
      ensures r.Fail? ==>
        r.error == "Skill with ID " + skillId.value + " not found in this module" && skills == old(skills)
      ensures r.Pass? ==> skills == RemoveAt(old(skills), IndexOf(old(skills), SkillKey, skillId.value))
      ensures r.Pass? && UniqueKeys(old(skills), SkillKey) ==> GetSkillById(skillId).None?
    {
      var i := IndexOf(skills, SkillKey, skillId.value);
      if i == -1 {
        return Fail("Skill with ID " + skillId.value + " not found in this module");
      }
      ghost var before := skills;
      skills := skills[..i] + skills[i + 1..];
      forall j | 0 <= j < |skills| && UniqueKeys(before, SkillKey) ensures SkillKey(skills[j]) != skillId.value {
        if j < i { assert skills[j] == before[j]; } else { assert skills[j] == before[j + 1]; }
      }
      return Pass;
    }
  }
}

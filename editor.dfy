/** The editor's state and its event handlers: the portfolio record and the
    two staging drafts, each handler replacing them as the React setters do. */
module Editor {
  import opened Text
  import opened Profile

  class PortfolioEditor {
    var data: PortfolioData
    var newSkill: string
    var newProject: ProjectDraft

    /** The invariant the handlers keep: no skill is listed twice. */
    ghost predicate Valid()
      reads this
    {
      NoDuplicates(data.skills)
    }

    /** The state a fresh page starts from. */
    constructor ()
      ensures Valid()
      ensures data == InitialData && newSkill == "" && newProject == EmptyDraft
    {
      data := InitialData;
      newSkill := "";
      newProject := EmptyDraft;
    }

    /** `updatePortfolioData(field, value)` for a text field. */
    method UpdatePortfolioData(f: TextField, v: string)
      modifies this
      ensures data == WithText(old(data), f, v)
      ensures newSkill == old(newSkill) && newProject == old(newProject)
      ensures old(Valid()) ==> Valid()
    {
      data := WithText(data, f, v);
    }

    /** `updateContactData(field, value)`. */
    method UpdateContactData(f: ContactField, v: string)
      modifies this
      ensures data == WithContact(old(data), f, v)
      ensures newSkill == old(newSkill) && newProject == old(newProject)
      ensures old(Valid()) ==> Valid()
    {
      data := WithContact(data, f, v);
    }

    /** `setNewSkill(value)` from the skill input. */
    method SetNewSkill(v: string)
      modifies this
      ensures newSkill == v
      ensures data == old(data) && newProject == old(newProject)
    {
      newSkill := v;
    }

    /** `setNewProject(prev => ({ ...prev, [field]: value }))` from the project form. */
    method UpdateNewProject(f: DraftField, v: string)
      modifies this
      ensures newProject == WithDraft(old(newProject), f, v)
      ensures data == old(data) && newSkill == old(newSkill)
    {
      newProject := WithDraft(newProject, f, v);
    }

    /** `addSkill()`: append the trimmed draft and clear it, if it is non-empty and new. */
    method AddSkill()
      modifies this
      ensures data == old(data).(skills := SkillsAfterAdd(old(data.skills), old(newSkill)))
      ensures newSkill == if CanAddSkill(old(data.skills), old(newSkill)) then "" else old(newSkill)
      ensures newProject == old(newProject)
      ensures old(Valid()) ==> Valid()
      ensures !CanAddSkill(old(data.skills), old(newSkill)) ==> data == old(data)
    {
      var t := Trim(newSkill);
      if t != "" && t !in data.skills {
        data := data.(skills := data.skills + [t]);
        newSkill := "";
      }
    }

    /** `removeSkill(skill)`: drop every listed skill equal to the argument. */
    method RemoveSkill(s: string)
      modifies this
      ensures data == old(data).(skills := SkillsAfterRemove(old(data.skills), s))
      ensures newSkill == old(newSkill) && newProject == old(newProject)
      ensures old(Valid()) ==> Valid()
    {
      data := data.(skills := SkillsAfterRemove(data.skills, s));
    }

    /** `addProject()`: append the draft with the given id and reset the draft, if its
        trimmed title is non-empty. The id is the clock reading the source takes;
        ids stay unique only when that reading is not yet used. */
    method AddProject(id: int)
      modifies this
      ensures data == old(data).(projects := ProjectsAfterAdd(old(data.projects), old(newProject), id))
      ensures newProject == if CanAddProject(old(newProject)) then EmptyDraft else old(newProject)
      ensures newSkill == old(newSkill)
      ensures old(Valid()) ==> Valid()
      ensures old(UniqueIds(data.projects)) && FreshId(old(data.projects), id) ==> UniqueIds(data.projects)
      ensures !CanAddProject(old(newProject)) ==> data == old(data)
    {
      if Trim(newProject.title) != "" {
        data := data.(projects := data.projects + [FromDraft(newProject, id)]);
        newProject := EmptyDraft;
      }
    }

    /** `removeProject(id)`: keep the projects whose id differs. */
    method RemoveProject(id: int)
      modifies this
      ensures data == old(data).(projects := ProjectsAfterRemove(old(data.projects), id))
      ensures newSkill == old(newSkill) && newProject == old(newProject)
      ensures old(Valid()) ==> Valid()
      ensures old(UniqueIds(data.projects)) ==> UniqueIds(data.projects)
    {
      data := data.(projects := ProjectsAfterRemove(data.projects, id));
    }
  }

  /** Typing the same skill and adding it twice, through the handlers, lists it once. */
  method AddSameSkillTwice(e: PortfolioEditor, s: string)
    requires e.Valid() && Trim(s) != ""
    modifies e
    ensures e.Valid()
    ensures multiset(e.data.skills)[Trim(s)] == 1
  {
    e.SetNewSkill(s);
    e.AddSkill();
    e.SetNewSkill(s);
    e.AddSkill();
    ghost var before := old(e.data.skills);
    assert e.data.skills == SkillsAfterAdd(SkillsAfterAdd(before, s), s);
    AddSkillTwiceOnce(before, s);
  }
}

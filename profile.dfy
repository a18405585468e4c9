/** The portfolio record the editor keeps, its staging drafts, and the pure
    list and record operations the edit handlers are built from. */
module Profile {
  import opened Text

  datatype Contact = Contact(email: string, phone: string, linkedin: string, github: string, website: string)

  /** A project as stored: the draft's five fields plus the id given when it was added. */
  datatype Project = Project(title: string, description: string, technologies: string,
                             githubUrl: string, demoUrl: string, id: int)

  /** The project form before it is added. */
  datatype ProjectDraft = ProjectDraft(title: string, description: string, technologies: string,
                                       githubUrl: string, demoUrl: string)

  datatype PortfolioData = PortfolioData(name: string, title: string, bio: string, profileImage: string,
                                         skills: seq<string>, projects: seq<Project>,
                                         contact: Contact, themeColor: string)

  const DefaultTheme: string := "#3b82f6"
  const EmptyContact: Contact := Contact("", "", "", "", "")
  const EmptyDraft: ProjectDraft := ProjectDraft("", "", "", "", "")
  const InitialData: PortfolioData := PortfolioData("", "", "", "", [], [], EmptyContact, DefaultTheme)

  // ---- single-field updates -------------------------------------------------

  /** The top-level text fields the form edits through `updatePortfolioData`. */
  datatype TextField = Name | Title | Bio | ProfileImage | ThemeColor

  function TextOf(p: PortfolioData, f: TextField): string {
    match f
    case Name => p.name
    case Title => p.title
    case Bio => p.bio
    case ProfileImage => p.profileImage
    case ThemeColor => p.themeColor
  }

  /** `{ ...prev, [field]: value }` for a text field. */
  function WithText(p: PortfolioData, f: TextField, v: string): (r: PortfolioData)
    ensures TextOf(r, f) == v
    ensures forall g :: g != f ==> TextOf(r, g) == TextOf(p, g)
    ensures r.skills == p.skills && r.projects == p.projects && r.contact == p.contact
  {
    match f
    case Name => p.(name := v)
    case Title => p.(title := v)
    case Bio => p.(bio := v)
    case ProfileImage => p.(profileImage := v)
    case ThemeColor => p.(themeColor := v)
  }

  /** Writing back the value a field already has changes nothing, and the last of two writes wins. */
  lemma WithTextLaws(p: PortfolioData, f: TextField, v: string, w: string)
    ensures WithText(p, f, TextOf(p, f)) == p
    ensures WithText(WithText(p, f, v), f, w) == WithText(p, f, w)
  {
  }

  datatype ContactField = Email | Phone | LinkedIn | GitHub | Website

  function ContactOf(c: Contact, f: ContactField): string {
    match f
    case Email => c.email
    case Phone => c.phone
    case LinkedIn => c.linkedin
    case GitHub => c.github
    case Website => c.website
  }

  /** `{ ...prev, contact: { ...prev.contact, [field]: value } }`. */
  function WithContact(p: PortfolioData, f: ContactField, v: string): (r: PortfolioData)
    ensures ContactOf(r.contact, f) == v
    ensures forall g :: g != f ==> ContactOf(r.contact, g) == ContactOf(p.contact, g)
    ensures r.(contact := p.contact) == p
  {
    var c := p.contact;
    p.(contact := match f
                  case Email => c.(email := v)
                  case Phone => c.(phone := v)
                  case LinkedIn => c.(linkedin := v)
                  case GitHub => c.(github := v)
                  case Website => c.(website := v))
  }

  lemma WithContactLaws(p: PortfolioData, f: ContactField, v: string, w: string)
    ensures WithContact(p, f, ContactOf(p.contact, f)) == p
    ensures WithContact(WithContact(p, f, v), f, w) == WithContact(p, f, w)
  {
  }

  datatype DraftField = DraftTitle | DraftDescription | DraftTechnologies | DraftGithubUrl | DraftDemoUrl

  function DraftOf(d: ProjectDraft, f: DraftField): string {
    match f
    case DraftTitle => d.title
    case DraftDescription => d.description
    case DraftTechnologies => d.technologies
    case DraftGithubUrl => d.githubUrl
    case DraftDemoUrl => d.demoUrl
  }

  /** `setNewProject(prev => ({ ...prev, [field]: value }))` from the project form. */
  function WithDraft(d: ProjectDraft, f: DraftField, v: string): (r: ProjectDraft)
    ensures DraftOf(r, f) == v
    ensures forall g :: g != f ==> DraftOf(r, g) == DraftOf(d, g)
  {
    match f
    case DraftTitle => d.(title := v)
    case DraftDescription => d.(description := v)
    case DraftTechnologies => d.(technologies := v)
    case DraftGithubUrl => d.(githubUrl := v)
    case DraftDemoUrl => d.(demoUrl := v)
  }

  lemma WithDraftLaws(d: ProjectDraft, f: DraftField, v: string, w: string)
    ensures WithDraft(d, f, DraftOf(d, f)) == d
    ensures WithDraft(WithDraft(d, f, v), f, w) == WithDraft(d, f, w)
  {
  }

  // ---- sequences: filter and distinctness ----------------------------------

  /** `Array.prototype.filter`. */
  function Filter<T>(s: seq<T>, keep: T -> bool): (r: seq<T>)
    ensures |r| <= |s|
    ensures forall i :: 0 <= i < |r| ==> r[i] in s && keep(r[i])
    ensures forall i :: 0 <= i < |s| && keep(s[i]) ==> s[i] in r
    ensures (forall i :: 0 <= i < |s| ==> keep(s[i])) ==> r == s
  {
    if s == [] then []
    else
      var rest := Filter(s[1..], keep);
      assert s == [s[0]] + s[1..];
      if keep(s[0]) then [s[0]] + rest else rest
  }

  /** Filtering distributes over concatenation: the kept elements stay in their order. */
  lemma {:induction false} FilterConcat<T>(a: seq<T>, b: seq<T>, keep: T -> bool)
    ensures Filter(a + b, keep) == Filter(a, keep) + Filter(b, keep)
  {
    if a == [] {
      assert a + b == b;
    } else {
      assert (a + b)[0] == a[0];
      assert (a + b)[1..] == a[1..] + b;
      FilterConcat(a[1..], b, keep);
    }
  }

  /** A sequence whose every element is kept filters to itself. */
  lemma KeptWhole<T>(s: seq<T>, keep: T -> bool)
    requires forall x :: x in s ==> keep(x)
    ensures Filter(s, keep) == s
  {
    forall i | 0 <= i < |s| ensures keep(s[i]) {
      assert s[i] in s;
    }
  }

  /** A single element that is not kept filters to nothing. */
  lemma DroppedSingle<T>(x: T, keep: T -> bool)
    requires !keep(x)
    ensures Filter([x], keep) == []
  {
    assert [x][1..] == [];
  }

  /** Filtering out one element between two wholly kept runs closes the gap and keeps their order. */
  lemma FilterAround<T>(a: seq<T>, x: T, b: seq<T>, keep: T -> bool)
    requires forall y :: y in a ==> keep(y)
    requires forall y :: y in b ==> keep(y)
    requires !keep(x)
    ensures Filter(a + [x] + b, keep) == a + b
  {
    KeptWhole(a, keep);
    KeptWhole(b, keep);
    FilterConcat(a + [x], b, keep);
    FilterConcat(a, [x], keep);
    DroppedSingle(x, keep);
    assert a + [] == a;
  }

  /** No two elements share a key. */
  ghost predicate Distinct<T, K>(s: seq<T>, key: T -> K) {
    forall i, j :: 0 <= i < j < |s| ==> key(s[i]) != key(s[j])
  }

  lemma DistinctAppend<T, K>(s: seq<T>, x: T, key: T -> K)
    ensures Distinct(s, key) && (forall y :: y in s ==> key(y) != key(x)) ==> Distinct(s + [x], key)
  {
    if Distinct(s, key) && (forall y :: y in s ==> key(y) != key(x)) {
      var t := s + [x];
      forall i, j | 0 <= i < j < |t| ensures key(t[i]) != key(t[j]) {
        if j == |s| {
          assert t[i] in s;
        } else {
          assert t[i] == s[i] && t[j] == s[j];
        }
      }
    }
  }

  lemma {:induction false} FilterDistinct<T, K>(s: seq<T>, keep: T -> bool, key: T -> K)
    ensures Distinct(s, key) ==> Distinct(Filter(s, keep), key)
  {
    if s != [] && Distinct(s, key) {
      var rest := Filter(s[1..], keep);
      assert Distinct(s[1..], key) by {
        forall i, j | 0 <= i < j < |s[1..]| ensures key(s[1..][i]) != key(s[1..][j]) {
          assert s[1..][i] == s[i + 1] && s[1..][j] == s[j + 1];
        }
      }
      FilterDistinct(s[1..], keep, key);
      if keep(s[0]) {
        var r := [s[0]] + rest;
        forall i, j | 0 <= i < j < |r| ensures key(r[i]) != key(r[j]) {
          if i == 0 {
            assert r[j] in s[1..];
            var k :| 0 <= k < |s[1..]| && s[1..][k] == r[j];
            assert s[k + 1] == r[j];
          } else {
            assert r[i] == rest[i - 1] && r[j] == rest[j - 1];
          }
        }
      }
    }
  }

  /** The identity key: skills are compared by their whole text, so `Distinct` over `Self` is "no duplicates". */
  function Self(s: string): string { s }

  /** The skills list holds no duplicates (case-sensitive). */
  ghost predicate NoDuplicates(skills: seq<string>) {
    Distinct(skills, Self)
  }

  /** A distinct list holds each of its elements exactly once. */
  lemma {:induction false} DistinctCount(s: seq<string>, x: string)
    requires NoDuplicates(s)
    ensures multiset(s)[x] == if x in s then 1 else 0
  {
    if s != [] {
      assert s == [s[0]] + s[1..];
      assert NoDuplicates(s[1..]) by {
        forall i, j | 0 <= i < j < |s[1..]| ensures Self(s[1..][i]) != Self(s[1..][j]) {
          assert s[1..][i] == s[i + 1] && s[1..][j] == s[j + 1];
        }
      }
      DistinctCount(s[1..], x);
      if s[0] == x {
        assert x !in s[1..] by {
          forall k | 0 <= k < |s[1..]| ensures s[1..][k] != x {
            assert Self(s[0]) != Self(s[k + 1]);
          }
        }
      }
      assert multiset(s) == multiset{s[0]} + multiset(s[1..]);
    }
  }

  // ---- skills ----------------------------------------------------------------

  /** `addSkill`'s guard: the trimmed draft is non-empty and not yet listed. */
  predicate CanAddSkill(skills: seq<string>, draft: string) {
    Trim(draft) != "" && Trim(draft) !in skills
  }

  /** The skills list after `addSkill` with the given draft. */
  function SkillsAfterAdd(skills: seq<string>, draft: string): (r: seq<string>)
    ensures |r| == |skills| + (if CanAddSkill(skills, draft) then 1 else 0)
    ensures r[..|skills|] == skills
    ensures CanAddSkill(skills, draft) ==> r[|skills|] == Trim(draft)
    ensures Trim(draft) != "" ==> Trim(draft) in r
    ensures NoDuplicates(skills) ==> NoDuplicates(r)
  {
    if CanAddSkill(skills, draft) then
      DistinctAppend(skills, Trim(draft), Self);
      skills + [Trim(draft)]
    else skills
  }

  /** Adding the same draft a second time changes nothing. */
  lemma AddSkillIdempotent(skills: seq<string>, draft: string)
    ensures SkillsAfterAdd(SkillsAfterAdd(skills, draft), draft) == SkillsAfterAdd(skills, draft)
  {
  }

  /** Adding a skill twice leaves it in the list exactly once. */
  lemma AddSkillTwiceOnce(skills: seq<string>, draft: string)
    requires NoDuplicates(skills) && Trim(draft) != ""
    ensures multiset(SkillsAfterAdd(SkillsAfterAdd(skills, draft), draft))[Trim(draft)] == 1
  {
    AddSkillIdempotent(skills, draft);
    DistinctCount(SkillsAfterAdd(skills, draft), Trim(draft));
  }

  /** The skills list after `removeSkill(s)`: every element equal to `s` dropped. */
  function SkillsAfterRemove(skills: seq<string>, s: string): (r: seq<string>)
    ensures s !in r
    ensures forall x :: x != s ==> (x in r <==> x in skills)
    ensures s !in skills ==> r == skills
    ensures NoDuplicates(skills) ==> NoDuplicates(r)
  {
    FilterDistinct(skills, x => x != s, Self);
    Filter(skills, x => x != s)
  }

  /** Removing a skill that was just added gives back the list before the add. */
  lemma RemoveUndoesAddSkill(skills: seq<string>, draft: string)
    requires CanAddSkill(skills, draft)
    ensures SkillsAfterRemove(SkillsAfterAdd(skills, draft), Trim(draft)) == skills
  {
    var t := Trim(draft);
    FilterConcat(skills, [t], x => x != t);
  }

  /** Removing a skill keeps the order of the others: the list closes up around the removed entry. */
  lemma RemoveSkillKeepsOrder(a: seq<string>, s: string, b: seq<string>)
    requires s !in a && s !in b
    ensures SkillsAfterRemove(a + [s] + b, s) == a + b
  {
    FilterAround(a, s, b, x => x != s);
  }

  // ---- projects --------------------------------------------------------------

  /** `addProject`'s guard: the trimmed title is non-empty; the other fields do not matter. */
  predicate CanAddProject(d: ProjectDraft) {
    Trim(d.title) != ""
  }

  /** `{ ...newProject, id }`: the draft as typed, untrimmed, with the id attached. */
  function FromDraft(d: ProjectDraft, id: int): (p: Project)
    ensures p.id == id
    ensures ProjectDraft(p.title, p.description, p.technologies, p.githubUrl, p.demoUrl) == d
  {
    Project(d.title, d.description, d.technologies, d.githubUrl, d.demoUrl, id)
  }

  function Id(p: Project): int { p.id }

  /** Project ids are pairwise different. */
  ghost predicate UniqueIds(projects: seq<Project>) {
    Distinct(projects, Id)
  }

  predicate FreshId(projects: seq<Project>, id: int) {
    forall p :: p in projects ==> p.id != id
  }

  /** The projects list after `addProject` with the given draft and id. */
  function ProjectsAfterAdd(projects: seq<Project>, d: ProjectDraft, id: int): (r: seq<Project>)
    ensures |r| == |projects| + (if CanAddProject(d) then 1 else 0)
    ensures r[..|projects|] == projects
    ensures CanAddProject(d) ==> r[|projects|] == FromDraft(d, id)
    ensures UniqueIds(projects) && FreshId(projects, id) ==> UniqueIds(r)
  {
    if CanAddProject(d) then
      DistinctAppend(projects, FromDraft(d, id), Id);
      projects + [FromDraft(d, id)]
    else projects
  }

  /** The projects list after `removeProject(id)`. */
  function ProjectsAfterRemove(projects: seq<Project>, id: int): (r: seq<Project>)
    ensures forall p :: p in r <==> p in projects && p.id != id
    ensures FreshId(projects, id) ==> r == projects
    ensures UniqueIds(projects) ==> UniqueIds(r)
  {
    FilterDistinct(projects, (p: Project) => p.id != id, Id);
    Filter(projects, (p: Project) => p.id != id)
  }

  /** Removing a project by the fresh id it was just added with gives back the list before the add. */
  lemma RemoveUndoesAddProject(projects: seq<Project>, d: ProjectDraft, id: int)
    requires FreshId(projects, id)
    ensures ProjectsAfterRemove(ProjectsAfterAdd(projects, d, id), id) == projects
  {
    var keep := (p: Project) => p.id != id;
    if CanAddProject(d) {
      var x := FromDraft(d, id);
      FilterConcat(projects, [x], keep);
      assert Filter([x], keep) == [] by {
        assert [x][1..] == [];
      }
      assert projects + [x] == ProjectsAfterAdd(projects, d, id);
    }
    assert forall i :: 0 <= i < |projects| ==> keep(projects[i]) by {
      forall i | 0 <= i < |projects| ensures keep(projects[i]) {
        assert projects[i] in projects;
      }
    }
  }

  /** Removing a project by an id no other project has keeps the order of the others. */
  lemma RemoveProjectKeepsOrder(a: seq<Project>, x: Project, b: seq<Project>)
    requires FreshId(a, x.id) && FreshId(b, x.id)
    ensures ProjectsAfterRemove(a + [x] + b, x.id) == a + b
  {
    FilterAround(a, x, b, (p: Project) => p.id != x.id);
  }

  /** With unique ids, removing an id that is present drops exactly one project. */
  lemma {:induction false} RemoveProjectCount(projects: seq<Project>, id: int)
    requires UniqueIds(projects)
    ensures |ProjectsAfterRemove(projects, id)| == |projects| - (if FreshId(projects, id) then 0 else 1)
  {
    FilterCountOther(projects, id);
  }

  lemma {:induction false} FilterCountOther(projects: seq<Project>, id: int)
    requires UniqueIds(projects)
    ensures |Filter(projects, (p: Project) => p.id != id)| == |projects| - (if FreshId(projects, id) then 0 else 1)
  {
    if projects != [] {
      var h, t := projects[0], projects[1..];
      assert projects == [h] + t;
      FilterConcat([h], t, (p: Project) => p.id != id);
      assert UniqueIds(t) by {
        forall i, j | 0 <= i < j < |t| ensures Id(t[i]) != Id(t[j]) {
          assert t[i] == projects[i + 1] && t[j] == projects[j + 1];
        }
      }
      FilterCountOther(t, id);
      assert |Filter([h], (p: Project) => p.id != id)| == if h.id == id then 0 else 1 by {
        assert [h][1..] == [];
      }
      if h.id == id {
        assert FreshId(t, id) by {
          forall q | q in t ensures q.id != id {
            var k :| 0 <= k < |t| && t[k] == q;
            assert Id(projects[0]) != Id(projects[k + 1]);
          }
        }
      } else {
        assert FreshId(projects, id) <==> FreshId(t, id);
      }
    }
  }
}

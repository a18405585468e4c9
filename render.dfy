/** `generatePortfolioHTML`: the exported document as a concatenation of
    section renderers over the portfolio record. Field values are inserted
    as they are, without HTML escaping, exactly as the source does. */
module Render {
  import opened Text
  import opened Profile
  import opened Style

  datatype Option<T> = None | Some(value: T)

  /** The opening, middle and closing parts of `a + m + z` are `a`, `m` and
      `z`; the renderers below use it to state what each piece of markup
      begins and ends with, without unfolding their literals. */
  lemma Framed(a: string, m: string, z: string)
    ensures (a + m + z)[..|a|] == a
    ensures (a + m + z)[|a| + |m|..] == z
    ensures (a + m + z)[|a|..|a| + |m|] == m
  {
  }

  // ---- conditional pieces -----------------------------------------------------

  /** The template-literal idiom `${v ? html : ''}` for a string `v`. */
  function When(v: string, html: string): string {
    if v != "" then html else ""
  }

  function Image(profileImage: string, name: string): (r: string)
    ensures r == "" <==> profileImage == ""
  {
    When(profileImage, "<img src=\"" + profileImage + "\" alt=\"" + name + "\" class=\"profile-image\">")
  }

  function BioSection(bio: string): (r: string)
    ensures r == "" <==> bio == ""
  {
    When(bio, "\n                <div class=\"section\">\n                    <h2 class=\"section-title\">About Me</h2>\n                    <p class=\"bio\">"
              + bio + "</p>\n                </div>\n                ")
  }

  /** `xs.map(f).join('')`. */
  function Join<T>(xs: seq<T>, f: T -> string): (r: string)
    ensures xs == [] ==> r == ""
    ensures xs != [] && f(xs[0]) != "" ==> r != ""
  {
    if xs == [] then "" else f(xs[0]) + Join(xs[1..], f)
  }

  /** The rendering of a concatenation is the concatenation of the renderings:
      one fragment per element, in list order. */
  lemma {:induction false} JoinConcat<T>(a: seq<T>, b: seq<T>, f: T -> string)
    ensures Join(a + b, f) == Join(a, f) + Join(b, f)
  {
    if a == [] {
      assert a + b == b;
    } else {
      assert (a + b)[0] == a[0];
      assert (a + b)[1..] == a[1..] + b;
      JoinConcat(a[1..], b, f);
    }
  }

  lemma JoinSingle<T>(x: T, f: T -> string)
    ensures Join([x], f) == f(x)
  {
    assert [x][1..] == [];
  }

  lemma JoinSnoc<T>(xs: seq<T>, x: T, f: T -> string)
    ensures Join(xs + [x], f) == Join(xs, f) + f(x)
  {
    JoinConcat(xs, [x], f);
    JoinSingle(x, f);
  }

  // ---- skills -----------------------------------------------------------------

  const BadgeOpen: string := "<span class=\"skill\">"
  const BadgeClose: string := "</span>"

  function Badge(skill: string): string {
    BadgeOpen + skill + BadgeClose
  }

  /** `skills.map(skill => `<span class="skill">${skill}</span>`).join('')`. */
  function SkillBadges(skills: seq<string>): (r: string)
    ensures r == "" <==> skills == []
  {
    Join(skills, Badge)
  }

  const SkillsOpen: string := "\n                <div class=\"section\">\n                    <h2 class=\"section-title\">Skills</h2>\n                    <div class=\"skills\">\n                        "
  const SectionClose: string := "\n                    </div>\n                </div>\n                "

  function SkillsSection(skills: seq<string>): (r: string)
    ensures r == "" <==> skills == []
  {
    if |skills| > 0 then SkillsOpen + SkillBadges(skills) + SectionClose else ""
  }

  predicate TagFree(s: string) {
    forall i :: 0 <= i < |s| ==> s[i] != '<'
  }

  /** The index of the first `<` in `s`, or `|s|` when there is none. */
  function FirstTag(s: string): (k: nat)
    ensures k <= |s|
    ensures TagFree(s[..k])
    ensures k < |s| ==> s[k] == '<'
  {
    if s == [] || s[0] == '<' then 0 else 1 + FirstTag(s[1..])
  }

  lemma {:induction false} FirstTagAfter(x: string, y: string)
    requires TagFree(x) && y != [] && y[0] == '<'
    ensures FirstTag(x + y) == |x|
  {
    if x != [] {
      assert (x + y)[1..] == x[1..] + y;
      FirstTagAfter(x[1..], y);
    }
  }

  /** Reads a run of `open + text + close` fragments back into their texts. */
  function ParseTagged(s: string, open: string, close: string): Option<seq<string>>
    requires open != []
    decreases |s|
  {
    if s == [] then Some([])
    else if !(|open| <= |s| && s[..|open|] == open) then None
    else
      var rest := s[|open|..];
      var k := FirstTag(rest);
      var after := rest[k..];
      if !(|close| <= |after| && after[..|close|] == close) then None
      else
        match ParseTagged(after[|close|..], open, close)
        case None => None
        case Some(more) => Some([rest[..k]] + more)
  }

  /** Reading one fragment whose text holds no `<`, when `close` starts with `<`. */
  lemma ParseTaggedStep(open: string, x: string, close: string, tail: string)
    requires open != [] && close != [] && close[0] == '<' && TagFree(x)
    ensures ParseTagged(open + x + close + tail, open, close)
            == match ParseTagged(tail, open, close)
               case None => None
               case Some(more) => Some([x] + more)
  {
    var s := open + x + close + tail;
    var closed := close + tail;
    assert s == open + (x + closed);
    assert s[..|open|] == open;
    var rest := s[|open|..];
    assert rest == x + closed;
    FirstTagAfter(x, closed);
    assert rest[..|x|] == x;
    assert rest[|x|..] == closed;
    assert closed[..|close|] == close;
    assert closed[|close|..] == tail;
  }

  /** Joining texts without `<`, each wrapped in `open` and `close`, reads back
      as those texts, in order. */
  lemma {:induction false} ParseJoin(xs: seq<string>, f: string -> string, open: string, close: string)
    requires open != [] && close != [] && close[0] == '<'
    requires forall x :: f(x) == open + x + close
    requires forall i :: 0 <= i < |xs| ==> TagFree(xs[i])
    ensures ParseTagged(Join(xs, f), open, close) == Some(xs)
  {
    if xs != [] {
      var x, rest := xs[0], xs[1..];
      var tail := Join(rest, f);
      assert Join(xs, f) == open + x + close + tail;
      ParseJoin(rest, f, open, close);
      ParseTaggedStep(open, x, close, tail);
      assert [x] + rest == xs;
    }
  }

  function ParseBadges(s: string): Option<seq<string>> {
    ParseTagged(s, BadgeOpen, BadgeClose)
  }

  /** The badges show exactly the skills, one each, in list order (for skills
      without a `<`, since nothing is escaped). */
  lemma ParseSkillBadges(skills: seq<string>)
    requires forall i :: 0 <= i < |skills| ==> TagFree(skills[i])
    ensures ParseBadges(SkillBadges(skills)) == Some(skills)
  {
    ParseJoin(skills, Badge, BadgeOpen, BadgeClose);
  }

  /** Reads a rendered skills section back: empty text is an empty list. */
  function ParseSkillsSection(s: string): Option<seq<string>> {
    if s == "" then Some([])
    else if |SkillsOpen| + |SectionClose| <= |s| && s[..|SkillsOpen|] == SkillsOpen
            && s[|s| - |SectionClose|..] == SectionClose
    then ParseBadges(s[|SkillsOpen|..|s| - |SectionClose|])
    else None
  }

  /** The skills section is absent exactly for an empty list, and when present
      shows every skill once, in order. */
  lemma SkillsSectionRoundTrip(skills: seq<string>)
    requires forall i :: 0 <= i < |skills| ==> TagFree(skills[i])
    ensures ParseSkillsSection(SkillsSection(skills)) == Some(skills)
  {
    if skills != [] {
      var b := SkillBadges(skills);
      var s := SkillsSection(skills);
      assert s == SkillsOpen + b + SectionClose;
      assert s[..|SkillsOpen|] == SkillsOpen;
      assert s[|s| - |SectionClose|..] == SectionClose;
      assert s[|SkillsOpen|..|s| - |SectionClose|] == b;
      ParseSkillBadges(skills);
    }
  }

  /** One skill `Rust` gives exactly one badge, showing `Rust`. */
  lemma OneSkillOneBadge()
    ensures SkillsSection(["Rust"]) == SkillsOpen + "<span class=\"skill\">Rust</span>" + SectionClose
    ensures ParseSkillsSection(SkillsSection(["Rust"])) == Some(["Rust"])
  {
    JoinSingle("Rust", Badge);
    var b := Badge("Rust");
    assert b == "<span class=\"skill\">Rust</span>";
    SkillsSectionRoundTrip(["Rust"]);
  }

  /** After `addSkill`, the badges are the old badges plus, when the skill was added, its badge. */
  lemma BadgesAfterAddSkill(skills: seq<string>, draft: string)
    ensures SkillBadges(SkillsAfterAdd(skills, draft))
            == SkillBadges(skills) + (if CanAddSkill(skills, draft) then Badge(Trim(draft)) else "")
  {
    if CanAddSkill(skills, draft) {
      JoinSnoc(skills, Trim(draft), Badge);
    }
  }

  // ---- projects ---------------------------------------------------------------

  function TechLine(technologies: string): (r: string)
    ensures r == "" <==> technologies == ""
  {
    When(technologies, "<p class=\"project-tech\">Technologies: " + technologies + "</p>")
  }

  function GithubLink(url: string): (r: string)
    ensures r == "" <==> url == ""
  {
    When(url, "<a href=\"" + url + "\" class=\"project-link\" target=\"_blank\">\U{1F4C1} GitHub</a>")
  }

  function DemoLink(url: string): (r: string)
    ensures r == "" <==> url == ""
  {
    When(url, "<a href=\"" + url + "\" class=\"project-link\" target=\"_blank\">\U{1F680} Live Demo</a>")
  }

  const CardOpen: string := "\n                            <div class=\"project\">\n                                <h3 class=\"project-title\">"

  function ProjectCard(p: Project): (r: string)
    ensures |r| > 0
  {
    CardOpen + CardRest(p)
  }

  const CardClose: string := "\n                                </div>\n                            </div>\n                        "

  /** A card after its opening markup: it begins with the project's title, as
      typed, and ends by closing the links row and the card. */
  function CardRest(p: Project): (r: string)
    ensures |r| >= |p.title| + |CardClose|
    ensures r[..|p.title|] == p.title
    ensures r[|r| - |CardClose|..] == CardClose
  {
    Framed(p.title, CardMiddle(p), CardClose);
    p.title + CardMiddle(p) + CardClose
  }

  /** A card's description, technologies line and links, after its title. */
  function CardMiddle(p: Project): string {
    "</h3>\n                                <p class=\"project-description\">" + p.description
    + "</p>\n                                " + TechLine(p.technologies)
    + "\n                                <div class=\"project-links\">\n                                    " + GithubLink(p.githubUrl)
    + "\n                                    " + DemoLink(p.demoUrl)
  }

  /** `projects.map(project => ...).join('')`. */
  function ProjectCards(projects: seq<Project>): (r: string)
    ensures r == "" <==> projects == []
  {
    Join(projects, ProjectCard)
  }

  /** After `addProject`, the cards are the old cards plus, when it was added, the draft's card. */
  lemma CardsAfterAddProject(projects: seq<Project>, d: ProjectDraft, id: int)
    ensures ProjectCards(ProjectsAfterAdd(projects, d, id))
            == ProjectCards(projects) + (if CanAddProject(d) then ProjectCard(FromDraft(d, id)) else "")
  {
    if CanAddProject(d) {
      JoinSnoc(projects, FromDraft(d, id), ProjectCard);
    }
  }

  const ProjectsOpen: string := "\n                <div class=\"section\">\n                    <h2 class=\"section-title\">Projects</h2>\n                    <div class=\"projects\">\n                        "

  function ProjectsSection(projects: seq<Project>): (r: string)
    ensures r == "" <==> projects == []
  {
    if |projects| > 0 then ProjectsOpen + ProjectCards(projects) + SectionClose else ""
  }

  // ---- contact ----------------------------------------------------------------

  function ContactLink(f: ContactField, v: string): (r: string)
    ensures r == "" <==> v == ""
  {
    When(v, match f
            case Email => "<a href=\"mailto:" + v + "\" class=\"contact-link\">\U{1F4E7} Email</a>"
            case Phone => "<a href=\"tel:" + v + "\" class=\"contact-link\">\U{1F4F1} Phone</a>"
            case LinkedIn => "<a href=\"" + v + "\" class=\"contact-link\" target=\"_blank\">\U{1F4BC} LinkedIn</a>"
            case GitHub => "<a href=\"" + v + "\" class=\"contact-link\" target=\"_blank\">\U{1F419} GitHub</a>"
            case Website => "<a href=\"" + v + "\" class=\"contact-link\" target=\"_blank\">\U{1F310} Website</a>")
  }

  const ContactOpen: string := "<div class=\"section\">\n                    <h2 class=\"section-title\">Contact</h2>\n                    <div class=\"contact\">\n                        <p>Let's connect and work together!</p>\n                        <div class=\"contact-links\">\n                            "
  const ContactClose: string := "\n                        </div>\n                    </div>\n                </div>"
  const LinkGap: string := "\n                            "

  /** The contact section: always present, one link per non-empty field. */
  function ContactSection(c: Contact): (r: string)
    ensures |r| >= |ContactOpen| + |ContactClose|
    ensures r[..|ContactOpen|] == ContactOpen
    ensures r[|r| - |ContactClose|..] == ContactClose
  {
    Framed(ContactOpen, ContactLinks(c), ContactClose);
    ContactOpen + ContactLinks(c) + ContactClose
  }

  /** One link per contact field, in a fixed order, separated by line breaks. */
  function ContactLinks(c: Contact): string {
    ContactLink(Email, c.email) + LinkGap + ContactLink(Phone, c.phone) + LinkGap
    + ContactLink(LinkedIn, c.linkedin) + LinkGap + ContactLink(GitHub, c.github) + LinkGap
    + ContactLink(Website, c.website)
  }

  // ---- the document -----------------------------------------------------------

  const PreludeOpen: string := "<!DOCTYPE html>\n<html lang=\"en\">\n<head>\n    <meta charset=\"UTF-8\">\n    <meta name=\"viewport\" content=\"width=device-width, initial-scale=1.0\">\n    <title>"
  const PreludeClose: string := " - Portfolio</title>\n    <style>"

  /** Everything before the style sheet: the document head, whose title is the
      owner's name, as typed, followed by ` - Portfolio`, up to `<style>`. */
  function Prelude(name: string): (r: string)
    ensures |r| == |PreludeOpen| + |name| + |PreludeClose|
    ensures r[..|PreludeOpen|] == PreludeOpen
    ensures r[|PreludeOpen|..|PreludeOpen| + |name|] == name
    ensures r[|PreludeOpen| + |name|..] == PreludeClose
  {
    Framed(PreludeOpen, name, PreludeClose);
    PreludeOpen + name + PreludeClose
  }

  const BodyOpen: string := "</style>\n</head>\n<body>\n    <div class=\"container\">\n        <div class=\"portfolio\">\n            <div class=\"header\">\n                "
  const BodyClose: string := "\n            </div>\n        </div>\n    </div>\n</body>\n</html>"

  /** Everything after the style sheet, around the already rendered picture
      and sections: it closes the style sheet and the head, and ends by
      closing the document. */
  function Body(name: string, title: string, image: string, bio: string,
                skills: string, projects: string, contact: string): (r: string)
    ensures |r| >= |BodyOpen| + |BodyClose|
    ensures r[..|BodyOpen|] == BodyOpen
    ensures r[|r| - |BodyClose|..] == BodyClose
  {
    var middle := HeaderAndContent(name, title, image, bio, skills, projects, contact);
    Framed(BodyOpen, middle, BodyClose);
    BodyOpen + middle + BodyClose
  }

  /** The header's picture, name and title, then the content sections. */
  function HeaderAndContent(name: string, title: string, image: string, bio: string,
                            skills: string, projects: string, contact: string): string {
    image
    + "\n                <h1 class=\"name\">" + name
    + "</h1>\n                <p class=\"title\">" + title
    + "</p>\n            </div>\n            \n            <div class=\"content\">\n                "
    + bio
    + "\n                \n                " + skills
    + "\n                \n                " + projects
    + "\n                \n                " + contact
  }

  /** The exported document: the head for the owner's name, the style sheet
      with the theme colour at each of its slots, and the body. It is the
      document's colour-free template filled with the theme colour. */
  function GeneratePortfolioHTML(p: PortfolioData): (r: string)
    ensures r == Fill(Template(p), p.themeColor)
  {
    FillFramed(Prelude(p.name), StyleSheet, BodyOf(p), p.themeColor);
    Prelude(p.name) + Fill(StyleSheet, p.themeColor) + BodyOf(p)
  }

  function BodyOf(p: PortfolioData): string {
    Body(p.name, p.title, Image(p.profileImage, p.name), BioSection(p.bio),
         SkillsSection(p.skills), ProjectsSection(p.projects), ContactSection(p.contact))
  }

  /** The document with every colour slot left open. */
  function Template(p: PortfolioData): seq<Piece> {
    [Lit(Prelude(p.name))] + (StyleSheet + [Lit(BodyOf(p))])
  }

  /** The theme colour enters the document only through the style sheet's
      substitutions: a portfolio rendered with any colour `c` is the same
      template, which does not depend on the colour, filled with `c`. */
  lemma ThemeOnlyInStyleSheet(p: PortfolioData, c: string)
    ensures Template(p.(themeColor := c)) == Template(p)
    ensures GeneratePortfolioHTML(p.(themeColor := c)) == Fill(Template(p), c)
  {
    BodyIgnoresTheme(p, c);
  }

  lemma BodyIgnoresTheme(p: PortfolioData, c: string)
    ensures BodyOf(p.(themeColor := c)) == BodyOf(p)
    ensures Template(p.(themeColor := c)) == Template(p)
  {
  }
}

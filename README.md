# Portfolio builder: a verified model of its editor and exporter

The portfolio builder is a single-page React application. A user fills in a
portfolio record: name, title, bio, profile image URL, a list of skills, a list
of projects, five contact links and a theme colour. The user then downloads it
as one self-contained HTML page. This project models the part of `src/App.jsx`
that decides what that page holds:

- **State.** The record and its initial value, plus the two staging drafts,
  the skill being typed and the project form.
- **Handlers.** The event handlers that change the state: `updatePortfolioData`,
  `updateContactData`, `addSkill`, `removeSkill`, `addProject`, `removeProject`,
  and the draft setters the form calls.
- **Renderer.** `generatePortfolioHTML`, the template literal that turns the
  record into the page.
- **File name.** The expression that names the downloaded file.

Modules, one per concern:

| file | module | contents |
|---|---|---|
| `text.dfy` | `Text` | JavaScript's `trim`, the `\s` class and `replace(/\s+/g, '_')`, and `toLowerCase`, with their laws |
| `profile.dfy` | `Profile` | the record, the drafts, the initial state, and the pure list and record operations each handler applies |
| `editor.dfy` | `Editor` | a `PortfolioEditor` class whose fields are the three pieces of React state and whose methods are the handlers, each proved against the `Profile` functions |
| `style.dfy` | `Style` | the page's style sheet, transcribed in full as sixteen literal runs with the theme colour's fifteen uses between them, and the substitution that fills them |
| `render.dfy` | `Render` | the page, section by section, with the parse-back and composition laws of the skills and projects sections |
| `export.dfy` | `Export` | the download file name |

The handlers are imperative: each replaces state, the way the React setters
do. `Editor.PortfolioEditor` keeps the fields `data`, `newSkill` and
`newProject`. Every method states its whole new state in terms of the old
state and a `Profile` function. Every method also keeps the invariant that no
skill is listed twice. The renderer and the file name are pure expressions in
the source, so they are modelled as functions, with lemmas about them.

A handler reads the `portfolioData`, `newSkill` and `newProject` captured by
the render that created it, and the values it passes to the setters take
effect only at the next render. So within one event a handler sees the state
from before the event. The methods read `old(...)`, which matches this.
`addProject` stamps each project with `Date.now()`; the model takes that
reading as the parameter `id`.

## Model

| member | source | states |
|---|---|---|
| Profile.WithText | src/App.jsx:63-68 | `{ ...prev, [field]: value }` for a text field sets that field to `value` and leaves every other field, the skills, the projects and the contact unchanged |
| Profile.WithTextLaws | src/App.jsx:63-68 | writing a field's current value back changes nothing; of two writes to one field the last wins |
| Profile.WithContact | src/App.jsx:70-78 | setting one contact field changes that field only; the rest of the record is as before |
| Profile.WithContactLaws | src/App.jsx:70-78 | writing back a contact field's current value changes nothing; the last of two writes wins |
| Profile.WithDraft | src/App.jsx:636-684 | a project-form edit sets one draft field and leaves the other four |
| Profile.WithDraftLaws | src/App.jsx:636-684 | writing back a draft field's current value changes nothing; the last of two writes wins |
| Profile.Filter | src/App.jsx:88 | `Array.prototype.filter` keeps exactly the elements satisfying the predicate, is never longer, and is the identity when all are kept |
| Profile.FilterConcat | src/App.jsx:88 | filtering a concatenation filters each part, keeping order |
| Profile.FilterDistinct | src/App.jsx:105 | filtering a list with pairwise-distinct keys leaves the keys pairwise distinct |
| Profile.DistinctCount | src/App.jsx:81 | in a duplicate-free list every element occurs exactly once |
| Profile.CanAddSkill | src/App.jsx:81 | definition: `addSkill`'s guard, true exactly when the trimmed draft is non-empty and is not already in the skill list |
| Profile.SkillsAfterAdd | src/App.jsx:80-85 | the add happens exactly when the trimmed draft is non-empty and not listed. It then appends the trimmed text at the end and keeps the old list as a prefix; the trimmed draft is listed afterwards whenever it is non-empty; no duplicates are created |
| Profile.AddSkillIdempotent | src/App.jsx:80-85 | adding the same draft a second time leaves the list unchanged |
| Profile.AddSkillTwiceOnce | src/App.jsx:80-85 | after adding a draft twice to a duplicate-free list, its trimmed text occurs exactly once |
| Profile.SkillsAfterRemove | src/App.jsx:87-89 | the removed skill is not listed afterwards, every other skill is listed iff it was before, removing an absent skill changes nothing, and no duplicates are created |
| Profile.RemoveSkillKeepsOrder | src/App.jsx:87-89 | removing a skill listed once keeps every other skill in its place in the order: the list closes up around the removed entry |
| Profile.RemoveUndoesAddSkill | src/App.jsx:80-89 | removing a skill just added gives back the list from before the add |
| Profile.CanAddProject | src/App.jsx:92 | definition: `addProject`'s guard, true exactly when the draft's trimmed title is non-empty; the other four draft fields are not consulted |
| Profile.FromDraft | src/App.jsx:93 | `{ ...newProject, id }` carries the five draft fields unchanged, untrimmed, plus the given id |
| Profile.ProjectsAfterAdd | src/App.jsx:91-102 | the add happens exactly when the trimmed title is non-empty. It then appends the draft with the id at the end and keeps the old list as a prefix; unique ids stay unique when the id is fresh |
| Profile.ProjectsAfterRemove | src/App.jsx:104-106 | a project remains iff it was there and its id differs; an unused id changes nothing; unique ids stay unique |
| Profile.RemoveProjectKeepsOrder | src/App.jsx:104-106 | removing a project by an id no other project has keeps every other project in its place in the order |
| Profile.RemoveUndoesAddProject | src/App.jsx:91-106 | removing by the fresh id a project was just added with gives back the list from before the add |
| Profile.RemoveProjectCount | src/App.jsx:104-106 | with unique ids, removing an id drops exactly one project when the id is used and none otherwise |
| Editor.PortfolioEditor.constructor | src/App.jsx:15-39 | the initial record: empty texts and lists, empty contact, theme `#3b82f6`, empty drafts; no duplicate skills |
| Editor.PortfolioEditor.UpdatePortfolioData | src/App.jsx:63-68 | the record becomes `WithText` of the old one; the drafts are untouched; the invariant that no skill is listed twice is kept |
| Editor.PortfolioEditor.UpdateContactData | src/App.jsx:70-78 | the record becomes `WithContact` of the old one; the drafts are untouched; the invariant is kept |
| Editor.PortfolioEditor.SetNewSkill | src/App.jsx:602 | the skill draft becomes the typed text; nothing else changes |
| Editor.PortfolioEditor.UpdateNewProject | src/App.jsx:636-684 | the project draft becomes `WithDraft` of the old one; nothing else changes |
| Editor.PortfolioEditor.AddSkill | src/App.jsx:80-85 | the skills become `SkillsAfterAdd` of the old skills and the old draft; the draft is cleared exactly when the add happens; otherwise nothing changes; the invariant is kept |
| Editor.PortfolioEditor.RemoveSkill | src/App.jsx:87-89 | the skills become `SkillsAfterRemove`; the drafts are untouched; the invariant is kept |
| Editor.PortfolioEditor.AddProject | src/App.jsx:91-102 | the projects become `ProjectsAfterAdd` with the given clock reading; the draft is reset exactly when the add happens; otherwise nothing changes; unique ids are kept when the reading is fresh |
| Editor.PortfolioEditor.RemoveProject | src/App.jsx:104-106 | the projects become `ProjectsAfterRemove`; the drafts are untouched; both invariants are kept |
| Editor.AddSameSkillTwice | src/App.jsx:80-85 | typing a skill and pressing add twice through the handlers lists its trimmed text exactly once |
| Text.IsWhitespace | src/App.jsx:81 | definition: the characters `trim()` strips and `\s` at line 476 matches, which are the ECMAScript WhiteSpace and LineTerminator code points: tab, line feed, U+000B, U+000C, carriage return, space, U+00A0, U+1680, U+2000 to U+200A, U+2028, U+2029, U+202F, U+205F, U+3000 and U+FEFF |
| Text.Trim | src/App.jsx:81 | `trim()` is empty iff the string is all whitespace. Otherwise it starts and ends with non-whitespace, and the input is that text with an all-whitespace prefix and suffix |
| Text.TrimIdempotent | src/App.jsx:81 | trimming twice is trimming once |
| Text.LeadingWs | src/App.jsx:81 | the length of the longest all-whitespace prefix: that prefix is all whitespace and the next character is not |
| Text.TrailingWs | src/App.jsx:81 | the same for the longest all-whitespace suffix |
| Text.CollapseWhitespace | src/App.jsx:476 | `replace(/\s+/g, '_')` leaves no whitespace, is never longer than its input, and is empty iff the input is |
| Text.CollapseKeepsWords | src/App.jsx:476 | a string without whitespace is left unchanged |
| Text.CollapseOneRun | src/App.jsx:476 | a non-empty run of whitespace becomes a single `_` |
| Text.CollapseConcat | src/App.jsx:476 | collapsing distributes over a concatenation that does not split a whitespace run |
| Text.Lower | src/App.jsx:476 | the one-character lower-case map yields no ASCII capital, changes only capitals and keeps whitespace as whitespace |
| Text.LowerCase | src/App.jsx:476 | the per-character lower-casing the model uses for `toLowerCase()` keeps the length |
| Text.LowerCaseIdempotent | src/App.jsx:476 | lower-casing twice is lower-casing once |
| Text.LowerCaseKeepsNoWhitespace | src/App.jsx:476 | lower-casing introduces no whitespace |
| Text.LowerCaseConcat | src/App.jsx:476 | the model's per-character lower-casing distributes over concatenation |
| Export.ExportFileName | src/App.jsx:476 | the file name is `portfolio.html` for an empty name. Otherwise it is the collapsed, lower-cased name plus `.html`; it always ends in `.html` |
| Export.Stem | src/App.jsx:476 | the part before `.html` has no whitespace, is no longer than the name, and is empty only for the empty name |
| Export.WhitespaceOnlyName | src/App.jsx:476 | a name made only of whitespace gives `_.html`, not the fallback |
| Export.TwoWordName | src/App.jsx:476 | two words joined by any whitespace run give the lower-cased words joined by `_`, plus `.html` |
| Export.JaneDoe | src/App.jsx:476 | the name `Jane Doe` gives `jane_doe.html` |
| Export.StemIdempotent | src/App.jsx:476 | deriving a file name stem from a stem changes nothing |
| Style.SheetRun | src/App.jsx:115-401 | definition: the sixteen literal runs of the style sheet, transcribed character for character between `<style>` and `</style>`, cut at each use of the theme colour |
| Style.SheetSlots | src/App.jsx:156-366 | definition: the fifteen colour uses in order, each one the bare colour or the colour followed by the alpha suffix `dd`, `20` or `30` that the source writes after it |
| Style.StyleSheet | src/App.jsx:115-401 | definition: the style sheet as a template, the runs woven with the slots, so that filling it with a colour gives the source's CSS for that colour |
| Style.FillConcat | src/App.jsx:115-401 | filling a concatenated template fills each part |
| Style.Fill | src/App.jsx:115-401 | the length of a filled template is the length of its fixed text plus one copy of the colour per hole |
| Style.Weave | src/App.jsx:115-401 | literal runs with a colour slot between each two: one more run than slots, and one hole per slot |
| Style.StyleSheetSlots | src/App.jsx:115-401 | the style sheet uses the theme colour at fifteen places (the `.header` gradient twice) |
| Style.FillFramed | src/App.jsx:109-401 | filling text, then a sheet, then text, puts the filled sheet between the two texts unchanged |
| Render.When | src/App.jsx:407-457 | definition: the template-literal idiom `${v ? html : ''}` for a string `v`, which is `html` when `v` is non-empty and the empty string otherwise |
| Render.Image | src/App.jsx:407 | the profile image tag is present iff the image URL is non-empty |
| Render.BioSection | src/App.jsx:413-418 | the About Me section is present iff the bio is non-empty |
| Render.Join | src/App.jsx:424 | `map(f).join('')` of an empty list is empty, and is non-empty when the first fragment is |
| Render.JoinConcat | src/App.jsx:424 | the rendering of a concatenated list is the concatenation of the renderings |
| Render.JoinSnoc | src/App.jsx:433-443 | appending one element appends its fragment |
| Render.Badge | src/App.jsx:424 | definition: the arrow function `skill => <span class="skill">${skill}</span>`, the skill inserted as typed, without escaping |
| Render.SkillBadges | src/App.jsx:424 | the badges are empty iff there are no skills |
| Render.SkillsSection | src/App.jsx:420-427 | the Skills section is present iff the list is non-empty |
| Render.FirstTag | src/App.jsx:424 | the position of the first `<`: everything before it holds none |
| Render.ParseTaggedStep | src/App.jsx:424 | reading back one wrapped fragment without `<` yields that fragment, then the reading of the rest |
| Render.ParseJoin | src/App.jsx:424 | a join of `<`-free texts, each wrapped in the same open and close tags, reads back as those texts in order |
| Render.ParseSkillBadges | src/App.jsx:424 | the badges read back as exactly the skill list, one badge per skill, in order |
| Render.SkillsSectionRoundTrip | src/App.jsx:420-427 | for skills without `<`, the Skills section reads back as the skill list; an empty section is an empty list |
| Render.OneSkillOneBadge | src/App.jsx:420-427 | the skill list `["Rust"]` gives exactly one `<span class="skill">Rust</span>` badge between the section's head and tail |
| Render.BadgesAfterAddSkill | src/App.jsx:80-85 | after `addSkill` the badges are the old badges plus the new skill's badge when the add happened |
| Render.TechLine | src/App.jsx:437 | the technologies line is present iff the field is non-empty |
| Render.GithubLink | src/App.jsx:439 | the GitHub link is present iff its URL is non-empty |
| Render.DemoLink | src/App.jsx:440 | the demo link is present iff its URL is non-empty |
| Render.ProjectCard | src/App.jsx:433-443 | every project renders a non-empty card |
| Render.CardMiddle | src/App.jsx:436-440 | definition: the text of a card between its title and the closing of its links row: the description, the technologies line and the two project links, with the source's markup and indentation |
| Render.CardRest | src/App.jsx:435-443 | after its opening markup a card begins with the project's title, as typed, and ends by closing the links row and the card |
| Render.ProjectCards | src/App.jsx:433-443 | the cards are empty iff there are no projects |
| Render.CardsAfterAddProject | src/App.jsx:91-102 | after `addProject` the cards are the old cards plus the new project's card when the add happened |
| Render.ProjectsSection | src/App.jsx:429-446 | the Projects section is present iff the list is non-empty |
| Render.ContactLink | src/App.jsx:453-457 | each contact link is present iff its field is non-empty |
| Render.ContactLinks | src/App.jsx:453-457 | definition: the five contact links in the source's order (email, phone, LinkedIn, GitHub, website), separated by the source's line break and indentation |
| Render.ContactSection | src/App.jsx:448-461 | the Contact section is always present, with its fixed head and tail around the links |
| Render.Prelude | src/App.jsx:109-115 | the head before the style sheet: the doctype and head markup up to `<title>`, then the owner's name as typed, then ` - Portfolio</title>` and `<style>`; its length is those two fixed parts plus the name's |
| Render.HeaderAndContent | src/App.jsx:407-460 | definition: the header's picture, name and title as typed, then the content sections in the source's order (About Me, Skills, Projects, Contact) with the source's whitespace between them |
| Render.Body | src/App.jsx:401-465 | the part after the style sheet opens by closing the style sheet and the head and opening the header, and ends by closing the page |
| Render.BodyIgnoresTheme | src/App.jsx:402-465 | the part of the page after the style sheet does not depend on the theme colour |
| Render.BodyOf | src/App.jsx:402-465 | definition: the body for a record: each section rendered from its own field of the record and passed to `Body` |
| Render.Template | src/App.jsx:108-468 | definition: the page with every colour slot open: the prelude for the owner's name, the style sheet template, then the body |
| Render.GeneratePortfolioHTML | src/App.jsx:108-468 | the page is its colour-free template (the head, the style sheet with its holes, the body) filled with its theme colour |
| Render.ThemeOnlyInStyleSheet | src/App.jsx:108-468 | the theme colour enters the page only through the style sheet's holes. For every colour the page is one fixed template filled with that colour |

## Left out

- Persistence: loading the record from `localStorage` on start and saving it on every change (src/App.jsx:50-61) is browser I/O. A saved record of any shape could replace the state; the model starts from the initial record only.
- Dark mode (src/App.jsx:14, 41-48) only switches a CSS class on the editor page, not on the exported page.
- The download itself (src/App.jsx:470-481): creating the Blob, the object URL and the clicked anchor is browser I/O. Only the file name it uses (line 476) is modelled.
- The JSX form and the live preview (src/App.jsx:483-818) are presentation. The form's calls into the handlers appear as the `Editor` methods, including the draft setters at lines 602 and 636-684.
- `Date.now()` (src/App.jsx:93) is a clock reading; it is the `id` parameter of `AddProject`.
- Profile.WithText: `updatePortfolioData` accepts any key and any value. The model covers the five text fields the form edits. The skills and projects updates the other handlers make through it are modelled inside those handlers.
- Text.Lower, Text.LowerCase, Text.LowerCaseConcat: `Text.Lower` lower-cases only ASCII and Latin-1 capitals. JavaScript's `toLowerCase` applies the full Unicode mapping, which can also change a string's length (one character, `İ`, becomes two). That mapping is also context-sensitive: a final capital sigma lower-cases to `ς`, so `"AΣ"` becomes `"aς"` while `"Σ"` alone becomes `"σ"`. `Text.LowerCase`'s length law and `Text.LowerCaseConcat` hold of the model's per-character map only, not of JavaScript's.
- Text: JavaScript strings are UTF-16 code units, while Dafny strings are sequences of code points. The emoji in the contact and project links are one character here and two code units there. For well-formed UTF-16 text this affects lengths only. A JavaScript string can also hold an unpaired surrogate, which no Dafny `char` can represent; such text is not modelled.
- Render.ParseSkillBadges, Render.SkillsSectionRoundTrip: hold only for skills without `<`. Field values are inserted into the page without HTML escaping, as the source does, so a skill containing markup changes the page's structure.
- Reading project cards back out of the page is not modelled. Their composition law (`CardsAfterAddProject`) is modelled.
- Project ids are not checked for uniqueness (`Date.now()` can repeat within one millisecond), and the colour's text input (src/App.jsx:588) accepts an empty value. The model follows the code: `UniqueIds` is kept only for a fresh id, and the theme colour is any string.
- Render.GeneratePortfolioHTML: the contract states the page as its template filled with the theme colour. It does not restate, about the page itself, where the body begins or the page's total length. `Style.Fill` gives the length of any filled template.

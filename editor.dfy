/**
 * The admin dashboard (app/dashboard/page.tsx): the edits it applies to the
 * in-memory document, each a previous-to-next transformation, the parsing
 * of comma-separated tags, the avatar initials, and the component that
 * holds the document and sequences loading, saving, resetting and image
 * uploads over the local cache.
 */
module Editor {

  import opened Wrappers
  import Text
  import opened PortfolioData
  import Auth

  // ---------------------------------------------------------------- list positions

  /** `list.map((x, i) => i === index ? f(x) : x)`. */
  function UpdateAt<T>(s: seq<T>, index: int, f: T -> T): (r: seq<T>)
    ensures |r| == |s|
    ensures forall k :: 0 <= k < |s| && k != index ==> r[k] == s[k]
    ensures 0 <= index < |s| ==> r[index] == f(s[index])
  {
    seq(|s|, k requires 0 <= k < |s| => if k == index then f(s[k]) else s[k])
  }

  /** `list.filter((_, i) => i !== index)`: keeps every element whose position
      differs from `index`.  Exactly the element at `index` goes, the others
      keep their order, and an index out of range changes nothing. */
  function RemoveAt<T>(s: seq<T>, index: int): (r: seq<T>)
    ensures 0 <= index < |s| ==> |r| == |s| - 1 && r == s[..index] + s[index + 1..]
    ensures !(0 <= index < |s|) ==> r == s
    decreases |s|
  {
    if s == [] then []
    else
      var rest := RemoveAt(s[1..], index - 1);
      assert 0 < index <= |s| - 1 ==> s[1..][..index - 1] == s[1..index] && s[1..][index..] == s[index + 1..];
      assert s == [s[0]] + s[1..];
      (if index == 0 then [] else [s[0]]) + rest
  }

  // ---------------------------------------------------------------- personal information

  function SetInfo(p: PersonalInfo, f: InfoField, v: string): PersonalInfo {
    match f
    case Name => p.(name := v)
    case Title => p.(title := v)
    case AvatarUrl => p.(avatarUrl := v)
    case Email => p.(email := v)
    case Phone => p.(phone := v)
    case Location => p.(location := v)
    case About => p.(about := v)
    case QrCodeUrl => p.(qrCodeUrl := v)
  }

  /** `updatePersonalInfo`: exactly the named field changes. */
  function UpdatePersonalInfo(d: Document, f: InfoField, v: string): (r: Document)
    ensures r == d.(personalInfo := r.personalInfo)
    ensures InfoValue(r.personalInfo, f) == v
    ensures forall g :: g != f ==> InfoValue(r.personalInfo, g) == InfoValue(d.personalInfo, g)
    ensures r.personalInfo.social == d.personalInfo.social && r.personalInfo.stats == d.personalInfo.stats
  {
    d.(personalInfo := SetInfo(d.personalInfo, f, v))
  }

  function SetSocial(s: Social, f: SocialField, v: string): Social {
    match f
    case Github => s.(github := v)
    case Linkedin => s.(linkedin := v)
    case Twitter => s.(twitter := v)
    case Instagram => s.(instagram := v)
  }

  /** `updateSocial`: exactly the named key of `social` changes. */
  function UpdateSocial(d: Document, f: SocialField, v: string): (r: Document)
    ensures r == d.(personalInfo := d.personalInfo.(social := r.personalInfo.social))
    ensures SocialValue(r.personalInfo.social, f) == v
    ensures forall g :: g != f ==> SocialValue(r.personalInfo.social, g) == SocialValue(d.personalInfo.social, g)
  {
    d.(personalInfo := d.personalInfo.(social := SetSocial(d.personalInfo.social, f, v)))
  }

  function SetStats(s: Stats, f: StatsField, v: string): Stats {
    match f
    case YearsExperience => s.(yearsExperience := v)
    case ProjectsCompleted => s.(projectsCompleted := v)
    case CertificationsAwards => s.(certificationsAwards := v)
  }

  /** `updateStats`: exactly the named key of `stats` changes. */
  function UpdateStats(d: Document, f: StatsField, v: string): (r: Document)
    ensures r == d.(personalInfo := d.personalInfo.(stats := r.personalInfo.stats))
    ensures StatsValue(r.personalInfo.stats, f) == v
    ensures forall g :: g != f ==> StatsValue(r.personalInfo.stats, g) == StatsValue(d.personalInfo.stats, g)
  {
    d.(personalInfo := d.personalInfo.(stats := SetStats(d.personalInfo.stats, f, v)))
  }

  // ---------------------------------------------------------------- skills

  const NewSkill := Skill(Some("New Skill"), Some(50))

  datatype SkillUpdate = SetSkillName(name: string) | SetSkillLevel(level: int)

  function ApplySkillUpdate(s: Skill, u: SkillUpdate): (r: Skill)
    ensures u.SetSkillName? ==> r.name == Some(u.name) && r.level == s.level
    ensures u.SetSkillLevel? ==> r.level == Some(u.level) && r.name == s.name
  {
    match u
    case SetSkillName(n) => s.(name := Some(n))
    case SetSkillLevel(l) => s.(level := Some(l))
  }

  /** `addSkill`: one template skill at the end; nothing else changes. */
  function AddSkill(d: Document): (r: Document)
    ensures r == d.(skills := r.skills)
    ensures |r.skills| == |d.skills| + 1 && r.skills[..|d.skills|] == d.skills && r.skills[|d.skills|] == NewSkill
  {
    d.(skills := d.skills + [NewSkill])
  }

  /** `updateSkill`: sets one field of the skill at `index`; out of range, nothing changes. */
  function UpdateSkill(d: Document, index: int, u: SkillUpdate): (r: Document)
    ensures r == d.(skills := r.skills)
    ensures |r.skills| == |d.skills|
    ensures forall k :: 0 <= k < |d.skills| && k != index ==> r.skills[k] == d.skills[k]
    ensures 0 <= index < |d.skills| ==> r.skills[index] == ApplySkillUpdate(d.skills[index], u)
  {
    d.(skills := UpdateAt(d.skills, index, s => ApplySkillUpdate(s, u)))
  }

  /** `removeSkill`. */
  function RemoveSkill(d: Document, index: int): (r: Document)
    ensures r == d.(skills := r.skills)
    ensures 0 <= index < |d.skills| ==> r.skills == d.skills[..index] + d.skills[index + 1..]
    ensures !(0 <= index < |d.skills|) ==> r == d
  {
    d.(skills := RemoveAt(d.skills, index))
  }

  // ---------------------------------------------------------------- experience

  const NewExperience := Experience(Some("New Position"), Some("Company"), Some("20XX - Present"), Some(""))

  datatype ExperienceField = ExperienceTitle | ExperienceCompany | ExperiencePeriod | ExperienceDescription

  function ExperienceValue(e: Experience, f: ExperienceField): Option<string> {
    match f
    case ExperienceTitle => e.title
    case ExperienceCompany => e.company
    case ExperiencePeriod => e.period
    case ExperienceDescription => e.description
  }

  /** `{ ...exp, [field]: value }`: exactly the named field changes. */
  function SetExperience(e: Experience, f: ExperienceField, v: string): (r: Experience)
    ensures ExperienceValue(r, f) == Some(v)
    ensures forall g :: g != f ==> ExperienceValue(r, g) == ExperienceValue(e, g)
  {
    match f
    case ExperienceTitle => e.(title := Some(v))
    case ExperienceCompany => e.(company := Some(v))
    case ExperiencePeriod => e.(period := Some(v))
    case ExperienceDescription => e.(description := Some(v))
  }

  /** `addExperience`. */
  function AddExperience(d: Document): (r: Document)
    ensures r == d.(experience := r.experience)
    ensures |r.experience| == |d.experience| + 1 && r.experience[..|d.experience|] == d.experience
    ensures r.experience[|d.experience|] == NewExperience
  {
    d.(experience := d.experience + [NewExperience])
  }

  /** `updateExperience`. */
  function UpdateExperience(d: Document, index: int, f: ExperienceField, v: string): (r: Document)
    ensures r == d.(experience := r.experience)
    ensures |r.experience| == |d.experience|
    ensures forall k :: 0 <= k < |d.experience| && k != index ==> r.experience[k] == d.experience[k]
    ensures 0 <= index < |d.experience| ==> r.experience[index] == SetExperience(d.experience[index], f, v)
  {
    d.(experience := UpdateAt(d.experience, index, e => SetExperience(e, f, v)))
  }

  /** `removeExperience`. */
  function RemoveExperience(d: Document, index: int): (r: Document)
    ensures r == d.(experience := r.experience)
    ensures 0 <= index < |d.experience| ==> r.experience == d.experience[..index] + d.experience[index + 1..]
    ensures !(0 <= index < |d.experience|) ==> r == d
  {
    d.(experience := RemoveAt(d.experience, index))
  }

  // ---------------------------------------------------------------- education

  const NewEducation := Education(Some("Degree Name"), Some("School Name"), Some("20XX - 20XX"))

  datatype EducationField = EducationDegree | EducationSchool | EducationPeriod

  function EducationValue(e: Education, f: EducationField): Option<string> {
    match f
    case EducationDegree => e.degree
    case EducationSchool => e.school
    case EducationPeriod => e.period
  }

  function SetEducation(e: Education, f: EducationField, v: string): (r: Education)
    ensures EducationValue(r, f) == Some(v)
    ensures forall g :: g != f ==> EducationValue(r, g) == EducationValue(e, g)
  {
    match f
    case EducationDegree => e.(degree := Some(v))
    case EducationSchool => e.(school := Some(v))
    case EducationPeriod => e.(period := Some(v))
  }

  /** `addEducation`. */
  function AddEducation(d: Document): (r: Document)
    ensures r == d.(education := r.education)
    ensures |r.education| == |d.education| + 1 && r.education[..|d.education|] == d.education
    ensures r.education[|d.education|] == NewEducation
  {
    d.(education := d.education + [NewEducation])
  }

  /** `updateEducation`. */
  function UpdateEducation(d: Document, index: int, f: EducationField, v: string): (r: Document)
    ensures r == d.(education := r.education)
    ensures |r.education| == |d.education|
    ensures forall k :: 0 <= k < |d.education| && k != index ==> r.education[k] == d.education[k]
    ensures 0 <= index < |d.education| ==> r.education[index] == SetEducation(d.education[index], f, v)
  {
    d.(education := UpdateAt(d.education, index, e => SetEducation(e, f, v)))
  }

  /** `removeEducation`. */
  function RemoveEducation(d: Document, index: int): (r: Document)
    ensures r == d.(education := r.education)
    ensures 0 <= index < |d.education| ==> r.education == d.education[..index] + d.education[index + 1..]
    ensures !(0 <= index < |d.education|) ==> r == d
  {
    d.(education := RemoveAt(d.education, index))
  }

  // ---------------------------------------------------------------- projects

  const NewProject := Project(Some("New Project"), Some(""), Some([]), Some("#"), Some(""))

  datatype ProjectTextField = ProjectTitle | ProjectDescription | ProjectLink | ProjectImageUrl

  datatype ProjectUpdate = SetProjectText(field: ProjectTextField, value: string) | SetProjectTags(tags: seq<string>)

  function ProjectTextValue(p: Project, f: ProjectTextField): Option<string> {
    match f
    case ProjectTitle => p.title
    case ProjectDescription => p.description
    case ProjectLink => p.link
    case ProjectImageUrl => p.imageUrl
  }

  /** `{ ...proj, [field]: value }`: exactly the named field changes. */
  function ApplyProjectUpdate(p: Project, u: ProjectUpdate): (r: Project)
    ensures u.SetProjectText? ==>
      && ProjectTextValue(r, u.field) == Some(u.value)
      && (forall g :: g != u.field ==> ProjectTextValue(r, g) == ProjectTextValue(p, g))
      && r.tags == p.tags
    ensures u.SetProjectTags? ==>
      && r.tags == Some(u.tags)
      && (forall g :: ProjectTextValue(r, g) == ProjectTextValue(p, g))
  {
    match u
    case SetProjectTags(ts) => p.(tags := Some(ts))
    case SetProjectText(f, v) =>
      match f
      case ProjectTitle => p.(title := Some(v))
      case ProjectDescription => p.(description := Some(v))
      case ProjectLink => p.(link := Some(v))
      case ProjectImageUrl => p.(imageUrl := Some(v))
  }

  /** `addProject`. */
  function AddProject(d: Document): (r: Document)
    ensures r == d.(projects := r.projects)
    ensures |r.projects| == |d.projects| + 1 && r.projects[..|d.projects|] == d.projects
    ensures r.projects[|d.projects|] == NewProject
    ensures Complete(d) ==> Complete(r)
  {
    d.(projects := d.projects + [NewProject])
  }

  /** `updateProject`. */
  function UpdateProject(d: Document, index: int, u: ProjectUpdate): (r: Document)
    ensures r == d.(projects := r.projects)
    ensures |r.projects| == |d.projects|
    ensures forall k :: 0 <= k < |d.projects| && k != index ==> r.projects[k] == d.projects[k]
    ensures 0 <= index < |d.projects| ==> r.projects[index] == ApplyProjectUpdate(d.projects[index], u)
    ensures Complete(d) ==> Complete(r)
  {
    d.(projects := UpdateAt(d.projects, index, p => ApplyProjectUpdate(p, u)))
  }

  /** `removeProject`. */
  function RemoveProject(d: Document, index: int): (r: Document)
    ensures r == d.(projects := r.projects)
    ensures 0 <= index < |d.projects| ==> r.projects == d.projects[..index] + d.projects[index + 1..]
    ensures !(0 <= index < |d.projects|) ==> r == d
    ensures Complete(d) ==> Complete(r)
  {
    d.(projects := RemoveAt(d.projects, index))
  }

  // ---------------------------------------------------------------- gallery

  const NewGalleryItem := GalleryItem(Some("New Item"), Some("Gallery highlight"), Some(""))

  datatype GalleryField = GalleryTitle | GalleryDescription | GalleryImageUrl

  function GalleryValue(g: GalleryItem, f: GalleryField): Option<string> {
    match f
    case GalleryTitle => g.title
    case GalleryDescription => g.description
    case GalleryImageUrl => g.imageUrl
  }

  function SetGallery(g: GalleryItem, f: GalleryField, v: string): (r: GalleryItem)
    ensures GalleryValue(r, f) == Some(v)
    ensures forall h :: h != f ==> GalleryValue(r, h) == GalleryValue(g, h)
  {
    match f
    case GalleryTitle => g.(title := Some(v))
    case GalleryDescription => g.(description := Some(v))
    case GalleryImageUrl => g.(imageUrl := Some(v))
  }

  /** `addGalleryItem`. */
  function AddGalleryItem(d: Document): (r: Document)
    ensures r == d.(gallery := r.gallery)
    ensures |r.gallery| == |d.gallery| + 1 && r.gallery[..|d.gallery|] == d.gallery
    ensures r.gallery[|d.gallery|] == NewGalleryItem
  {
    d.(gallery := d.gallery + [NewGalleryItem])
  }

  /** `updateGalleryItem`. */
  function UpdateGalleryItem(d: Document, index: int, f: GalleryField, v: string): (r: Document)
    ensures r == d.(gallery := r.gallery)
    ensures |r.gallery| == |d.gallery|
    ensures forall k :: 0 <= k < |d.gallery| && k != index ==> r.gallery[k] == d.gallery[k]
    ensures 0 <= index < |d.gallery| ==> r.gallery[index] == SetGallery(d.gallery[index], f, v)
  {
    d.(gallery := UpdateAt(d.gallery, index, g => SetGallery(g, f, v)))
  }

  /** `removeGalleryItem`. */
  function RemoveGalleryItem(d: Document, index: int): (r: Document)
    ensures r == d.(gallery := r.gallery)
    ensures 0 <= index < |d.gallery| ==> r.gallery == d.gallery[..index] + d.gallery[index + 1..]
    ensures !(0 <= index < |d.gallery|) ==> r == d
  {
    d.(gallery := RemoveAt(d.gallery, index))
  }

  // ---------------------------------------------------------------- add and remove are inverse

  /** Removing the item just added restores the document, for every list. */
  lemma RemoveUndoesAdd(d: Document)
    ensures RemoveSkill(AddSkill(d), |d.skills|) == d
    ensures RemoveExperience(AddExperience(d), |d.experience|) == d
    ensures RemoveEducation(AddEducation(d), |d.education|) == d
    ensures RemoveProject(AddProject(d), |d.projects|) == d
    ensures RemoveGalleryItem(AddGalleryItem(d), |d.gallery|) == d
  {
    assert (d.skills + [NewSkill])[..|d.skills|] == d.skills;
    assert (d.experience + [NewExperience])[..|d.experience|] == d.experience;
    assert (d.education + [NewEducation])[..|d.education|] == d.education;
    assert (d.projects + [NewProject])[..|d.projects|] == d.projects;
    assert (d.gallery + [NewGalleryItem])[..|d.gallery|] == d.gallery;
  }

  // ---------------------------------------------------------------- tags

  function TrimAll(parts: seq<string>): (r: seq<string>)
    ensures |r| == |parts|
    ensures forall i :: 0 <= i < |r| ==> r[i] == Text.Trim(parts[i])
  {
    seq(|parts|, i requires 0 <= i < |parts| => Text.Trim(parts[i]))
  }

  predicate NoneEmpty(xs: seq<string>) {
    forall i :: 0 <= i < |xs| ==> xs[i] != ""
  }

  /** `.filter(Boolean)` on strings: drops the empty ones, keeping order. */
  function KeepNonEmpty(xs: seq<string>): (r: seq<string>)
    ensures |r| <= |xs|
    ensures NoneEmpty(r) && forall i :: 0 <= i < |r| ==> r[i] in xs
    ensures NoneEmpty(xs) ==> r == xs
  {
    if xs == [] then []
    else
      var rest := KeepNonEmpty(xs[1..]);
      assert forall t :: t in xs[1..] ==> t in xs;
      assert xs == [xs[0]] + xs[1..];
      if xs[0] == "" then rest else [xs[0]] + rest
  }

  /** Filtering distributes over concatenation: order is kept, nothing is
      added, and every non-empty element of either half survives. */
  lemma {:induction false} KeepNonEmptyAppend(a: seq<string>, b: seq<string>)
    ensures KeepNonEmpty(a + b) == KeepNonEmpty(a) + KeepNonEmpty(b)
  {
    if a == [] {
      assert a + b == b;
    } else {
      HeadAndRest(a, b);
      KeepNonEmptyAppend(a[1..], b);
      KeepNonEmptyAppendStep(a[0], a[1..], b);
    }
  }

  lemma KeepNonEmptyAppendStep(x: string, rest: seq<string>, b: seq<string>)
    requires KeepNonEmpty(rest + b) == KeepNonEmpty(rest) + KeepNonEmpty(b)
    ensures KeepNonEmpty([x] + (rest + b)) == KeepNonEmpty([x] + rest) + KeepNonEmpty(b)
  {
    KeepNonEmptyCons(x, rest);
    KeepNonEmptyCons(x, rest + b);
    Text.AppendAssoc([x], KeepNonEmpty(rest), KeepNonEmpty(b));
  }

  lemma HeadAndRest<T>(a: seq<T>, b: seq<T>)
    requires a != []
    ensures a == [a[0]] + a[1..] && a + b == [a[0]] + (a[1..] + b)
  {
  }

  /** One step of the filter: an empty head is dropped, any other is kept. */
  lemma KeepNonEmptyCons(x: string, rest: seq<string>)
    ensures KeepNonEmpty([x] + rest) == if x == "" then KeepNonEmpty(rest) else [x] + KeepNonEmpty(rest)
  {
    assert ([x] + rest)[1..] == rest;
  }

  /** The tag field: `value.split(",").map(t => t.trim()).filter(Boolean)`.
      Every tag is a non-empty word without surrounding white space or commas. */
  function ParseTags(text: string): (tags: seq<string>)
    ensures forall i :: 0 <= i < |tags| ==> Text.IsTrimmedWord(tags[i]) && ',' !in tags[i]
  {
    var pieces := Text.Split(text, ',');
    TrimmedPiecesAreClean(pieces);
    KeepNonEmpty(TrimAll(pieces))
  }

  /** A comma splits the field into the tags of either side. */
  lemma ParseTagsAppend(a: string, b: string)
    ensures ParseTags(a + "," + b) == ParseTags(a) + ParseTags(b)
  {
    var pa, pb := Text.Split(a, ','), Text.Split(b, ',');
    Text.SplitConcat(a, ',', b);
    assert a + "," + b == a + [','] + b;
    TrimAllAppend(pa, pb);
    KeepNonEmptyAppend(TrimAll(pa), TrimAll(pb));
  }

  lemma TrimAllAppend(a: seq<string>, b: seq<string>)
    ensures TrimAll(a + b) == TrimAll(a) + TrimAll(b)
  {
  }

  /** A field without a comma is one tag, trimmed, or no tag when it is blank. */
  lemma ParseTagsWord(w: string)
    requires ',' !in w
    ensures ParseTags(w) == if Text.Trim(w) == "" then [] else [Text.Trim(w)]
  {
    Text.SplitWithoutSeparator(w, ',');
    assert TrimAll([w]) == [Text.Trim(w)];
    assert [Text.Trim(w)][1..] == [];
  }

  /** Trimming comma-free pieces leaves each one empty or a comma-free trimmed word. */
  lemma TrimmedPiecesAreClean(pieces: seq<string>)
    requires forall i :: 0 <= i < |pieces| ==> ',' !in pieces[i]
    ensures forall t :: t in TrimAll(pieces) && t != "" ==> Text.IsTrimmedWord(t) && ',' !in t
  {
    var trimmed := TrimAll(pieces);
    forall t | t in trimmed && t != "" ensures Text.IsTrimmedWord(t) && ',' !in t {
      var i :| 0 <= i < |trimmed| && trimmed[i] == t;
      TrimKeepsOut(pieces[i], ',');
    }
  }

  /** A character absent from a string is absent from its trimmed form. */
  lemma TrimKeepsOut(s: string, c: char)
    requires c !in s
    ensures c !in Text.Trim(s)
  {
    var t := Text.TrimStart(s);
    var r := Text.TrimEnd(t);
    assert r == Text.Trim(s);
    forall k | 0 <= k < |r| ensures r[k] != c {
      assert r[k] == t[k];
      assert t[k] == s[|s| - |t| + k];
    }
  }

  /** The way the tag field shows tags: joined with `", "`. */
  function ShowTags(tags: seq<string>): string {
    Text.Join(tags, ", ")
  }

  /** Every tag after the first, preceded by the space of the `", "` separator. */
  function Padded(tags: seq<string>): (r: seq<string>)
    ensures |r| == |tags|
  {
    seq(|tags|, i requires 0 <= i < |tags| => if i == 0 then tags[0] else " " + tags[i])
  }

  lemma {:induction false} JoinPadded(tags: seq<string>)
    ensures Text.Join(tags, ", ") == Text.Join(Padded(tags), ",")
  {
    if |tags| > 1 {
      JoinPadded(tags[1..]);
      var p, q := Padded(tags), Padded(tags[1..]);
      assert p[1..] == [" " + q[0]] + q[1..];
      JoinSpaceFirst(q[0], q[1..]);
      assert q == [q[0]] + q[1..];
    }
  }

  lemma JoinSpaceFirst(a: string, rest: seq<string>)
    ensures Text.Join([" " + a] + rest, ",") == " " + Text.Join([a] + rest, ",")
  {
    if |rest| > 0 {
      assert ([" " + a] + rest)[1..] == rest;
      assert ([a] + rest)[1..] == rest;
    }
  }

  /** Showing clean tags and parsing the field back gives the same tags. */
  lemma TagsRoundTrip(tags: seq<string>)
    requires forall i :: 0 <= i < |tags| ==> Text.IsTrimmedWord(tags[i]) && ',' !in tags[i]
    ensures ParseTags(ShowTags(tags)) == tags
  {
    if tags == [] {
      assert Text.Split("", ',') == [""];
    } else {
      JoinPadded(tags);
      PaddedHasNoComma(tags);
      Text.SplitJoin(Padded(tags), ',');
      PaddedTrimsBack(tags);
      assert NoneEmpty(tags);
    }
  }

  lemma PaddedHasNoComma(tags: seq<string>)
    requires forall i :: 0 <= i < |tags| ==> ',' !in tags[i]
    ensures forall i :: 0 <= i < |Padded(tags)| ==> ',' !in Padded(tags)[i]
  {
    var padded := Padded(tags);
    forall i | 0 <= i < |padded| ensures ',' !in padded[i] {
      if i > 0 {
        assert padded[i] == " " + tags[i];
      }
    }
  }

  /** Trimming the padded tags gives back the tags. */
  lemma PaddedTrimsBack(tags: seq<string>)
    requires forall i :: 0 <= i < |tags| ==> Text.IsTrimmedWord(tags[i])
    ensures TrimAll(Padded(tags)) == tags
  {
    var padded := Padded(tags);
    forall i | 0 <= i < |padded| ensures Text.Trim(padded[i]) == tags[i] {
      if i == 0 {
        Text.TrimFixedPoint(tags[0]);
      } else {
        Text.TrimLeadingSpace(tags[i]);
      }
    }
  }

  // ---------------------------------------------------------------- initials

  function FirstChars(parts: seq<string>): seq<string> {
    if parts == [] then []
    else [if parts[0] == "" then "" else [parts[0][0]]] + FirstChars(parts[1..])
  }

  /** The avatar placeholder: `name.split(" ").map(part => part.charAt(0)).join("")`. */
  function Initials(name: string): (r: string)
    ensures r == WordStarts(name, true)
  {
    InitialsOfSplit(name);
    Text.Join(FirstChars(Text.Split(name, ' ')), "")
  }

  /** Reference definition of the initials: the characters that start a word,
      a word being a run of characters other than the space character. */
  function WordStarts(s: string, atStart: bool): string {
    if s == [] then ""
    else if s[0] == ' ' then WordStarts(s[1..], true)
    else (if atStart then [s[0]] else "") + WordStarts(s[1..], false)
  }

  lemma JoinEmptyCons(a: string, rest: seq<string>)
    ensures Text.Join([a] + rest, "") == a + Text.Join(rest, "")
  {
    if rest != [] {
      assert ([a] + rest)[1..] == rest;
    }
  }

  lemma {:induction false} InitialsOfSplit(s: string)
    ensures Text.Join(FirstChars(Text.Split(s, ' ')), "") == WordStarts(s, true)
    ensures Text.Join(FirstChars(Text.Split(s, ' ')[1..]), "") == WordStarts(s, false)
  {
    if s != [] {
      InitialsOfSplit(s[1..]);
      var rest := Text.Split(s[1..], ' ');
      if s[0] == ' ' {
        assert Text.Split(s, ' ') == [""] + rest;
        assert FirstChars([""] + rest) == [""] + FirstChars(rest);
        JoinEmptyCons("", FirstChars(rest));
        assert ([""] + rest)[1..] == rest;
      } else {
        var first := [s[0]] + rest[0];
        assert Text.Split(s, ' ') == [first] + rest[1..];
        assert FirstChars([first] + rest[1..]) == [[s[0]]] + FirstChars(rest[1..]);
        JoinEmptyCons([s[0]], FirstChars(rest[1..]));
        assert ([first] + rest[1..])[1..] == rest[1..];
      }
    }
  }

  // ---------------------------------------------------------------- the dashboard component

  /** The clock, random suffix and storage answers an upload depends on. */
  datatype UploadContext = UploadContext(
    supabaseUrl: Option<string>, supabaseKey: Option<string>,
    now: nat, suffix: string, outcome: StorageOutcome)

  /** `uploadFile`: the URL of the stored image, or `None` where it throws
      because the upload returned nothing (or an empty URL). */
  function UploadedFileUrl(ctx: UploadContext, fileName: string, folder: Folder): (url: Option<string>)
    ensures url.Some? ==> url.value != ""
    ensures url.Some? <==> Text.Truthy(ctx.supabaseUrl) && Text.Truthy(ctx.supabaseKey)
                           && ctx.outcome.UploadAccepted? && ctx.outcome.publicUrl != ""
    ensures url.Some? ==> ctx.outcome.UploadAccepted? && url.value == ctx.outcome.publicUrl
  {
    var r := ReturnedUrl(UploadImage(ctx.supabaseUrl, ctx.supabaseKey, fileName, folder, ctx.now, ctx.suffix, ctx.outcome));
    if Text.Truthy(r) then r else None
  }

  class Dashboard {
    var data: Document
    var loading: bool
    var saving: bool
    var saved: bool
    const cache: LocalCache

    /** The document held by the editor is always complete. */
    ghost predicate Valid()
      reads this
    {
      Complete(data)
    }

    constructor (cache: LocalCache)
      ensures Valid() && this.cache == cache
      ensures data == DefaultDocument && loading && !saving && !saved
    {
      this.cache := cache;
      data := DefaultDocument;
      loading, saving, saved := true, false, false;
      new;
      DefaultComplete();
    }

    /** The mount effect: redirect to the login page when the session is not
        authenticated, otherwise load the document (remote first, falling
        back to the cache) and stop showing the loading state. */
    method Mount(auth: Auth.AuthStore, remote: FetchOutcome) returns (redirected: bool)
      requires Valid()
      modifies this, cache
      ensures Valid()
      ensures redirected == !auth.Authenticated()
      ensures saving == old(saving) && saved == old(saved)
      ensures redirected ==> data == old(data) && loading == old(loading) && cache.slot == old(cache.slot)
      ensures !redirected ==> !loading
      ensures !redirected && remote.FetchFailed? ==>
        data == ReadSlot(cache.hasWindow, old(cache.slot)) && cache.slot == old(cache.slot)
      ensures !redirected && remote == Fetched(None) ==>
        data == DefaultDocument && cache.slot == old(cache.slot)
      ensures !redirected && remote.Fetched? && remote.data.Some? ==>
        && data == Merge(remote.data.value)
        && cache.slot == (if cache.hasWindow then Stored(AsPartial(data)) else old(cache.slot))
    {
      var ok := auth.IsAuthenticated();
      if !ok {
        return true;
      }
      redirected := false;
      data := FetchPortfolio(cache, remote);
      loading := false;
    }

    /** `handleSave`: the remote save writes the cache on success and the
        dashboard writes it itself on failure, so afterwards the cache holds
        the document either way, and `saved` is set. */
    method HandleSave(upserted: bool) returns (remoteSaved: bool)
      requires Valid()
      modifies this, cache
      ensures Valid()
      ensures remoteSaved == upserted
      ensures data == old(data) && loading == old(loading) && !saving && saved
      ensures cache.slot == if cache.hasWindow then Stored(AsPartial(data)) else old(cache.slot)
      ensures cache.hasWindow ==> ReadSlot(true, cache.slot) == data
    {
      saving := true;
      remoteSaved := SavePortfolioToRemote(cache, data, upserted);
      if !remoteSaved {
        SavePortfolioData(cache, data);
      }
      saving := false;
      saved := true;
      if cache.hasWindow {
        ReadAfterSave(data);
      }
    }

    /** `handleReset`: once confirmed, the document and the cache both become
        the default document; otherwise nothing changes. */
    method HandleReset(confirmed: bool)
      requires Valid()
      modifies this, cache
      ensures Valid()
      ensures loading == old(loading) && saving == old(saving) && saved == old(saved)
      ensures confirmed ==>
        && data == DefaultDocument
        && cache.slot == (if cache.hasWindow then Stored(AsPartial(DefaultDocument)) else old(cache.slot))
      ensures !confirmed ==> data == old(data) && cache.slot == old(cache.slot)
    {
      if confirmed {
        data := DefaultDocument;
        SavePortfolioData(cache, DefaultDocument);
        DefaultComplete();
      }
    }

    /** `handleLogout`: clears the session flag. */
    method HandleLogout(auth: Auth.AuthStore)
      modifies auth
      ensures !auth.Authenticated()
      ensures auth.items == (if auth.hasWindow then old(auth.items) - {Auth.AuthTokenKey} else old(auth.items))
    {
      auth.RemoveAuthToken();
    }

    /** `handleAvatarUpload`: on a returned URL only the avatar URL changes;
        without a file, or when the upload fails, nothing changes. */
    method HandleAvatarUpload(file: Option<string>, ctx: UploadContext)
      requires Valid()
      modifies this
      ensures Valid()
      ensures loading == old(loading) && saving == old(saving) && saved == old(saved)
      ensures file.None? ==> data == old(data)
      ensures file.Some? ==> (data ==
        match UploadedFileUrl(ctx, file.value, AvatarFolder)
        case None => old(data)
        case Some(url) => UpdatePersonalInfo(old(data), AvatarUrl, url))
    {
      if file.None? {
        return;
      }
      var url := UploadedFileUrl(ctx, file.value, AvatarFolder);
      if url.Some? {
        data := UpdatePersonalInfo(data, AvatarUrl, url.value);
      }
    }

    /** `handleProjectImageUpload`: on a returned URL only the image URL of
        project `index` changes. */
    method HandleProjectImageUpload(index: int, file: Option<string>, ctx: UploadContext)
      requires Valid()
      modifies this
      ensures Valid()
      ensures loading == old(loading) && saving == old(saving) && saved == old(saved)
      ensures file.None? ==> data == old(data)
      ensures file.Some? ==> (data ==
        match UploadedFileUrl(ctx, file.value, ProjectFolder)
        case None => old(data)
        case Some(url) => UpdateProject(old(data), index, SetProjectText(ProjectImageUrl, url)))
    {
      if file.None? {
        return;
      }
      var url := UploadedFileUrl(ctx, file.value, ProjectFolder);
      if url.Some? {
        data := UpdateProject(data, index, SetProjectText(ProjectImageUrl, url.value));
      }
    }

    /** `handleGalleryImageUpload`: on a returned URL only the image URL of
        gallery item `index` changes. */
    method HandleGalleryImageUpload(index: int, file: Option<string>, ctx: UploadContext)
      requires Valid()
      modifies this
      ensures Valid()
      ensures loading == old(loading) && saving == old(saving) && saved == old(saved)
      ensures file.None? ==> data == old(data)
      ensures file.Some? ==> (data ==
        match UploadedFileUrl(ctx, file.value, GalleryFolder)
        case None => old(data)
        case Some(url) => UpdateGalleryItem(old(data), index, GalleryImageUrl, url))
    {
      if file.None? {
        return;
      }
      var url := UploadedFileUrl(ctx, file.value, GalleryFolder);
      if url.Some? {
        data := UpdateGalleryItem(data, index, GalleryImageUrl, url.value);
      }
    }
  }
}

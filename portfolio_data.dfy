/**
 * The portfolio content document, its default instance, the merge of a
 * partially specified document over the defaults, the single local-storage
 * slot that caches the document, the remote fetch and save that fall back
 * to that slot, and the storage key of an uploaded image
 * (app/lib/portfolio-data.ts).
 */
module PortfolioData {

  import opened Wrappers
  import Text

  // ---------------------------------------------------------------- the document

  datatype Social = Social(github: string, linkedin: string, twitter: string, instagram: string)

  datatype Stats = Stats(yearsExperience: string, projectsCompleted: string, certificationsAwards: string)

  datatype PersonalInfo = PersonalInfo(
    name: string, title: string, avatarUrl: string, email: string,
    phone: string, location: string, about: string, qrCodeUrl: string,
    social: Social, stats: Stats)

  /* List items are copied wholesale from whatever was stored, so any of
     their fields may be missing. */

  datatype Skill = Skill(name: Option<string>, level: Option<int>)

  datatype Experience = Experience(
    title: Option<string>, company: Option<string>, period: Option<string>, description: Option<string>)

  datatype Education = Education(degree: Option<string>, school: Option<string>, period: Option<string>)

  datatype Project = Project(
    title: Option<string>, description: Option<string>, tags: Option<seq<string>>,
    link: Option<string>, imageUrl: Option<string>)

  datatype GalleryItem = GalleryItem(title: Option<string>, description: Option<string>, imageUrl: Option<string>)

  datatype Document = Document(
    personalInfo: PersonalInfo,
    skills: seq<Skill>,
    experience: seq<Experience>,
    education: seq<Education>,
    projects: seq<Project>,
    gallery: seq<GalleryItem>)

  /** What the merge guarantees beyond the shape of the record: every project
      carries an image URL. */
  predicate Complete(d: Document) {
    forall i :: 0 <= i < |d.projects| ==> d.projects[i].imageUrl.Some?
  }

  // ---------------------------------------------------------------- partial documents

  datatype PartialSocial = PartialSocial(
    github: Option<string>, linkedin: Option<string>, twitter: Option<string>, instagram: Option<string>)

  datatype PartialStats = PartialStats(
    yearsExperience: Option<string>, projectsCompleted: Option<string>, certificationsAwards: Option<string>)

  datatype PartialPersonalInfo = PartialPersonalInfo(
    name: Option<string>, title: Option<string>, avatarUrl: Option<string>, email: Option<string>,
    phone: Option<string>, location: Option<string>, about: Option<string>, qrCodeUrl: Option<string>,
    social: Option<PartialSocial>, stats: Option<PartialStats>)

  /** A stored or fetched document, of which any field may be absent or null. */
  datatype PartialDocument = PartialDocument(
    personalInfo: Option<PartialPersonalInfo>,
    skills: Option<seq<Skill>>,
    experience: Option<seq<Experience>>,
    education: Option<seq<Education>>,
    projects: Option<seq<Project>>,
    gallery: Option<seq<GalleryItem>>)

  const EmptyPartial := PartialDocument(None, None, None, None, None, None)

  // ---------------------------------------------------------------- field names

  datatype InfoField = Name | Title | AvatarUrl | Email | Phone | Location | About | QrCodeUrl
  datatype SocialField = Github | Linkedin | Twitter | Instagram
  datatype StatsField = YearsExperience | ProjectsCompleted | CertificationsAwards

  function InfoValue(p: PersonalInfo, f: InfoField): string {
    match f
    case Name => p.name
    case Title => p.title
    case AvatarUrl => p.avatarUrl
    case Email => p.email
    case Phone => p.phone
    case Location => p.location
    case About => p.about
    case QrCodeUrl => p.qrCodeUrl
  }

  function PartialInfoValue(p: PartialPersonalInfo, f: InfoField): Option<string> {
    match f
    case Name => p.name
    case Title => p.title
    case AvatarUrl => p.avatarUrl
    case Email => p.email
    case Phone => p.phone
    case Location => p.location
    case About => p.about
    case QrCodeUrl => p.qrCodeUrl
  }

  function SocialValue(s: Social, f: SocialField): string {
    match f
    case Github => s.github
    case Linkedin => s.linkedin
    case Twitter => s.twitter
    case Instagram => s.instagram
  }

  function PartialSocialValue(s: PartialSocial, f: SocialField): Option<string> {
    match f
    case Github => s.github
    case Linkedin => s.linkedin
    case Twitter => s.twitter
    case Instagram => s.instagram
  }

  function StatsValue(s: Stats, f: StatsField): string {
    match f
    case YearsExperience => s.yearsExperience
    case ProjectsCompleted => s.projectsCompleted
    case CertificationsAwards => s.certificationsAwards
  }

  function PartialStatsValue(s: PartialStats, f: StatsField): Option<string> {
    match f
    case YearsExperience => s.yearsExperience
    case ProjectsCompleted => s.projectsCompleted
    case CertificationsAwards => s.certificationsAwards
  }

  // ---------------------------------------------------------------- defaults

  const DefaultAbout: string :=
    "I'm a passionate Software Developer with expertise in building modern web applications. \n"
    + "I love creating elegant solutions to complex problems and am always eager to learn new technologies.\n"
    + "\n"
    + "With a strong foundation in both frontend and backend development, I strive to deliver \n"
    + "high-quality, scalable solutions that make a real impact."

  const DefaultPersonalInfo: PersonalInfo :=
    PersonalInfo(
      "Your Name", "Software Developer", "", "your.email@example.com",
      "+1 234 567 8900", "Your City, Country", DefaultAbout, "",
      Social("https://github.com/yourusername", "https://linkedin.com/in/yourusername", "", ""),
      Stats("3+", "15+", "5+"))

  function DefaultProject(title: string, description: string, tags: seq<string>): Project {
    Project(Some(title), Some(description), Some(tags), Some("#"), Some(""))
  }

  /** `defaultPortfolioData`. */
  const DefaultDocument: Document :=
    Document(
      DefaultPersonalInfo,
      [ Skill(Some("JavaScript"), Some(90)), Skill(Some("TypeScript"), Some(85)),
        Skill(Some("React"), Some(90)), Skill(Some("Next.js"), Some(80)),
        Skill(Some("Node.js"), Some(75)), Skill(Some("Python"), Some(70)),
        Skill(Some("SQL"), Some(75)), Skill(Some("Git"), Some(85)) ],
      [ Experience(Some("Software Developer"), Some("Company Name"), Some("2023 - Present"),
          Some("Developing and maintaining web applications using React and Node.js.")),
        Experience(Some("Junior Developer"), Some("Previous Company"), Some("2021 - 2023"),
          Some("Built responsive web interfaces and collaborated with cross-functional teams.")) ],
      [ Education(Some("Bachelor's in Computer Science"), Some("University Name"), Some("2017 - 2021")) ],
      [ DefaultProject("Project One", "A full-stack web application built with React and Node.js",
          ["React", "Node.js", "MongoDB"]),
        DefaultProject("Project Two", "Mobile-responsive e-commerce platform with payment integration",
          ["Next.js", "Stripe", "Tailwind"]),
        DefaultProject("Project Three", "Real-time chat application with WebSocket support",
          ["React", "Socket.io", "Express"]) ],
      [ GalleryItem(Some("Gallery One"), Some("Creative snapshot"), Some("")),
        GalleryItem(Some("Gallery Two"), Some("Design moment"), Some("")),
        GalleryItem(Some("Gallery Three"), Some("Work in focus"), Some("")) ])

  lemma DefaultComplete()
    ensures Complete(DefaultDocument)
  {
  }

  // ---------------------------------------------------------------- merge with defaults

  /** The `social` sub-map: key by key, a supplied key overrides the default. */
  function MergeSocial(p: Option<PartialSocial>): (s: Social)
    ensures forall f :: (SocialValue(s, f) ==
      if p.Some? && PartialSocialValue(p.value, f).Some? then PartialSocialValue(p.value, f).value
      else SocialValue(DefaultPersonalInfo.social, f))
  {
    var d := DefaultPersonalInfo.social;
    match p
    case None => d
    case Some(q) =>
      Social(q.github.GetOr(d.github), q.linkedin.GetOr(d.linkedin),
             q.twitter.GetOr(d.twitter), q.instagram.GetOr(d.instagram))
  }

  /** The `stats` sub-map: key by key, a supplied key overrides the default. */
  function MergeStats(p: Option<PartialStats>): (s: Stats)
    ensures forall f :: (StatsValue(s, f) ==
      if p.Some? && PartialStatsValue(p.value, f).Some? then PartialStatsValue(p.value, f).value
      else StatsValue(DefaultPersonalInfo.stats, f))
  {
    var d := DefaultPersonalInfo.stats;
    match p
    case None => d
    case Some(q) =>
      Stats(q.yearsExperience.GetOr(d.yearsExperience), q.projectsCompleted.GetOr(d.projectsCompleted),
            q.certificationsAwards.GetOr(d.certificationsAwards))
  }

  /** `personalInfo`: supplied scalars override the defaults; the two sub-maps
      are merged key by key even when the partial supplies only some keys. */
  function MergePersonalInfo(p: Option<PartialPersonalInfo>): (r: PersonalInfo)
    ensures forall f :: (InfoValue(r, f) ==
      if p.Some? && PartialInfoValue(p.value, f).Some? then PartialInfoValue(p.value, f).value
      else InfoValue(DefaultPersonalInfo, f))
    ensures r.social == MergeSocial(if p.Some? then p.value.social else None)
    ensures r.stats == MergeStats(if p.Some? then p.value.stats else None)
  {
    var d := DefaultPersonalInfo;
    match p
    case None => d.(social := MergeSocial(None), stats := MergeStats(None))
    case Some(q) =>
      PersonalInfo(
        q.name.GetOr(d.name), q.title.GetOr(d.title), q.avatarUrl.GetOr(d.avatarUrl),
        q.email.GetOr(d.email), q.phone.GetOr(d.phone), q.location.GetOr(d.location),
        q.about.GetOr(d.about), q.qrCodeUrl.GetOr(d.qrCodeUrl),
        MergeSocial(q.social), MergeStats(q.stats))
  }

  /** The `.map` over projects that backfills a missing image URL with `""`. */
  function WithImageUrls(ps: seq<Project>): (r: seq<Project>)
    ensures |r| == |ps|
    ensures forall i :: 0 <= i < |r| ==> r[i].imageUrl.Some?
    ensures forall i :: 0 <= i < |r| && ps[i].imageUrl.Some? ==> r[i] == ps[i]
    ensures forall i :: 0 <= i < |r| && ps[i].imageUrl.None? ==> r[i] == ps[i].(imageUrl := Some(""))
  {
    seq(|ps|, i requires 0 <= i < |ps| => ps[i].(imageUrl := Some(ps[i].imageUrl.GetOr(""))))
  }

  /** `mergeWithDefaults`: the lists are replaced wholesale when present and
      otherwise default (never concatenated), the personal information is
      merged field by field, and the result is complete. */
  function Merge(p: PartialDocument): (d: Document)
    ensures Complete(d)
    ensures d.skills == (if p.skills.Some? then p.skills.value else DefaultDocument.skills)
    ensures d.experience == (if p.experience.Some? then p.experience.value else DefaultDocument.experience)
    ensures d.education == (if p.education.Some? then p.education.value else DefaultDocument.education)
    ensures d.gallery == (if p.gallery.Some? then p.gallery.value else DefaultDocument.gallery)
    ensures var src := if p.projects.Some? then p.projects.value else DefaultDocument.projects;
      && |d.projects| == |src|
      && (forall i :: 0 <= i < |src| && src[i].imageUrl.Some? ==> d.projects[i] == src[i])
      && (forall i :: 0 <= i < |src| && src[i].imageUrl.None? ==> d.projects[i] == src[i].(imageUrl := Some("")))
    ensures forall f :: (InfoValue(d.personalInfo, f) ==
      if p.personalInfo.Some? && PartialInfoValue(p.personalInfo.value, f).Some?
      then PartialInfoValue(p.personalInfo.value, f).value
      else InfoValue(DefaultPersonalInfo, f))
    ensures forall f :: (SocialValue(d.personalInfo.social, f) ==
      if p.personalInfo.Some? && p.personalInfo.value.social.Some?
      && PartialSocialValue(p.personalInfo.value.social.value, f).Some?
      then PartialSocialValue(p.personalInfo.value.social.value, f).value
      else SocialValue(DefaultPersonalInfo.social, f))
    ensures forall f :: (StatsValue(d.personalInfo.stats, f) ==
      if p.personalInfo.Some? && p.personalInfo.value.stats.Some?
      && PartialStatsValue(p.personalInfo.value.stats.value, f).Some?
      then PartialStatsValue(p.personalInfo.value.stats.value, f).value
      else StatsValue(DefaultPersonalInfo.stats, f))
  {
    var defaults := DefaultDocument;
    Document(
      MergePersonalInfo(p.personalInfo),
      p.skills.GetOr(defaults.skills),
      p.experience.GetOr(defaults.experience),
      p.education.GetOr(defaults.education),
      WithImageUrls(p.projects.GetOr(defaults.projects)),
      p.gallery.GetOr(defaults.gallery))
  }

  /** The partial that reading back a stored document yields: every field present. */
  function AsPartial(d: Document): PartialDocument {
    var i := d.personalInfo;
    PartialDocument(
      Some(PartialPersonalInfo(
        Some(i.name), Some(i.title), Some(i.avatarUrl), Some(i.email),
        Some(i.phone), Some(i.location), Some(i.about), Some(i.qrCodeUrl),
        Some(PartialSocial(Some(i.social.github), Some(i.social.linkedin),
                           Some(i.social.twitter), Some(i.social.instagram))),
        Some(PartialStats(Some(i.stats.yearsExperience), Some(i.stats.projectsCompleted),
                          Some(i.stats.certificationsAwards))))),
      Some(d.skills), Some(d.experience), Some(d.education), Some(d.projects), Some(d.gallery))
  }

  /** Merging a complete document returns it unchanged. */
  lemma MergeOfComplete(d: Document)
    requires Complete(d)
    ensures Merge(AsPartial(d)) == d
  {
    var m := Merge(AsPartial(d));
    assert m.projects == d.projects;
    assert m.personalInfo == d.personalInfo;
  }

  /** Merge is idempotent: merging the stored form of a merge changes nothing. */
  lemma MergeIdempotent(p: PartialDocument)
    ensures Merge(AsPartial(Merge(p))) == Merge(p)
  {
    MergeOfComplete(Merge(p));
  }

  /** An empty (or non-object) partial merges to the default document. */
  lemma MergeOfEmpty()
    ensures Merge(EmptyPartial) == DefaultDocument
  {
    var m := Merge(EmptyPartial);
    assert m.projects == DefaultDocument.projects;
  }

  // ---------------------------------------------------------------- the local cache slot

  /** The `portfolio_data` entry of local storage.  `Absent` also stands for a
      stored empty string; `Corrupt` for text that does not parse, or parses
      to `null`, on which the merge throws. */
  datatype Slot = Absent | Corrupt | Stored(partial: PartialDocument)

  /** The browser's storage slot; `hasWindow` is false when the code runs on
      the server, where local storage does not exist. */
  class LocalCache {
    const hasWindow: bool
    var slot: Slot

    constructor (hasWindow: bool, slot: Slot)
      ensures this.hasWindow == hasWindow && this.slot == slot
    {
      this.hasWindow := hasWindow;
      this.slot := slot;
    }
  }

  /** What `getPortfolioData` returns for a given slot; the specification of
      `GetPortfolioData`. The result is always a complete document: the
      defaults when there is nothing to read, else the stored value merged
      over them. */
  function ReadSlot(hasWindow: bool, slot: Slot): (r: Document)
    ensures Complete(r)
    ensures !hasWindow || !slot.Stored? ==> r == DefaultDocument
    ensures hasWindow && slot.Stored? ==> r == Merge(slot.partial)
  {
    DefaultComplete();
    if hasWindow && slot.Stored? then Merge(slot.partial) else DefaultDocument
  }

  /** Reading back a saved complete document yields that document. */
  lemma ReadAfterSave(d: Document)
    requires Complete(d)
    ensures ReadSlot(true, Stored(AsPartial(d))) == d
  {
    MergeOfComplete(d);
  }

  /** `getPortfolioData`: the merge of the stored partial, or the default
      document when there is no window or the slot is absent or corrupt. */
  method GetPortfolioData(cache: LocalCache) returns (d: Document)
    ensures Complete(d)
    ensures !cache.hasWindow ==> d == DefaultDocument
    ensures cache.slot.Absent? || cache.slot.Corrupt? ==> d == DefaultDocument
    ensures cache.hasWindow && cache.slot.Stored? ==> d == Merge(cache.slot.partial)
    ensures d == ReadSlot(cache.hasWindow, cache.slot)
  {
    if cache.hasWindow {
      match cache.slot
      case Stored(p) =>
        d := Merge(p);
        return;
      case _ =>
    }
    DefaultComplete();
    d := DefaultDocument;
  }

  /** `savePortfolioData`: overwrites the slot, in a browser only. */
  method SavePortfolioData(cache: LocalCache, d: Document)
    modifies cache
    ensures cache.slot == if cache.hasWindow then Stored(AsPartial(d)) else old(cache.slot)
  {
    if cache.hasWindow {
      cache.slot := Stored(AsPartial(d));
    }
  }

  // ---------------------------------------------------------------- remote fetch and save

  /** The answer of the remote store to the point lookup of row 1: an error
      (returned or thrown), or a row whose `data` is present or not. */
  datatype FetchOutcome = FetchFailed | Fetched(data: Option<PartialDocument>)

  /** `fetchPortfolioFromSupabase`. */
  method FetchPortfolio(cache: LocalCache, remote: FetchOutcome) returns (d: Document)
    modifies cache
    ensures Complete(d)
    ensures remote.FetchFailed? ==>
      d == ReadSlot(cache.hasWindow, old(cache.slot)) && cache.slot == old(cache.slot)
    ensures remote == Fetched(None) ==>
      d == DefaultDocument && cache.slot == old(cache.slot)
    ensures remote.Fetched? && remote.data.Some? ==>
      && d == Merge(remote.data.value)
      && cache.slot == (if cache.hasWindow then Stored(AsPartial(d)) else old(cache.slot))
  {
    match remote
    case FetchFailed =>
      d := GetPortfolioData(cache);
    case Fetched(Some(p)) =>
      d := Merge(p);
      SavePortfolioData(cache, d);
    case Fetched(None) =>
      DefaultComplete();
      d := DefaultDocument;
  }

  /** `savePortfolioToSupabase`: true, and the cache overwritten with `d`,
      exactly when the upsert reported no error. */
  method SavePortfolioToRemote(cache: LocalCache, d: Document, upserted: bool) returns (ok: bool)
    modifies cache
    ensures ok == upserted
    ensures cache.slot == if upserted && cache.hasWindow then Stored(AsPartial(d)) else old(cache.slot)
  {
    if !upserted {
      return false;
    }
    SavePortfolioData(cache, d);
    ok := true;
  }

  // ---------------------------------------------------------------- image upload key

  datatype Folder = AvatarFolder | ProjectFolder | GalleryFolder

  function FolderName(f: Folder): string {
    match f
    case AvatarFolder => "avatar"
    case ProjectFolder => "project"
    case GalleryFolder => "gallery"
  }

  /** `file.name.split(".").pop()?.toLowerCase() || "png"`: the lower-cased
      text after the last dot (the whole name when it has none), or `"png"`
      when that text is empty. */
  function FileExtension(name: string): (ext: string)
    ensures ext != [] && '.' !in ext
    ensures name == [] || name[|name| - 1] == '.' ==> ext == "png"
    ensures name != [] && name[|name| - 1] != '.' ==>
      && |ext| <= |name|
      && ext == Text.Lower(name[|name| - |ext|..])
      && '.' !in name[|name| - |ext|..]
      && (|ext| == |name| || name[|name| - |ext| - 1] == '.')
  {
    var seg := Text.Last(Text.Split(name, '.'));
    Text.SplitLast(name, '.');
    var lowered := Text.Lower(seg);
    assert forall i :: 0 <= i < |seg| ==> lowered[i] == Text.LowerChar(seg[i]);
    if lowered == "" then "png" else lowered
  }

  /** The storage key `<folder>/<millis>-<suffix>.<ext>`. */
  function StorageKey(folder: Folder, fileName: string, now: nat, suffix: string): (k: string)
    ensures var dir := FolderName(folder) + "/";
      |dir| < |k| && k[..|dir|] == dir
    ensures var ext := "." + FileExtension(fileName);
      |ext| < |k| && k[|k| - |ext|..] == ext
    ensures var head := FolderName(folder) + "/" + Text.DecimalString(now) + "-";
      |head| + |suffix| < |k| && k[..|head| + |suffix|] == head + suffix
    ensures |k| == |FolderName(folder)| + 1 + |Text.DecimalString(now)| + 1 + |suffix| + 1 + |FileExtension(fileName)|
  {
    var dir, ext := FolderName(folder) + "/", "." + FileExtension(fileName);
    var k := dir + Text.DecimalString(now) + "-" + suffix + ext;
    assert k == dir + (Text.DecimalString(now) + "-" + suffix + ext);
    k
  }

  /** Two uploads of the same file to the same folder in the same millisecond
      get different keys whenever their random suffixes differ. */
  lemma StorageKeySuffixInjective(folder: Folder, fileName: string, now: nat, s1: string, s2: string)
    requires StorageKey(folder, fileName, now, s1) == StorageKey(folder, fileName, now, s2)
    ensures s1 == s2
  {
    KeyCancels(FolderName(folder), Text.DecimalString(now), s1, s2, FileExtension(fileName));
  }

  lemma KeyCancels(f: string, n: string, a: string, b: string, e: string)
    requires f + "/" + n + "-" + a + "." + e == f + "/" + n + "-" + b + "." + e
    ensures a == b
  {
    var pre := f + "/" + n + "-";
    var ka := pre + a + "." + e;
    var kb := pre + b + "." + e;
    assert |a| == |b|;
    assert a == ka[|pre|..|pre| + |a|];
    assert b == kb[|pre|..|pre| + |b|];
  }

  /** The answer of the storage bucket to a create-only upload. */
  datatype StorageOutcome = UploadRejected | UploadAccepted(publicUrl: string)

  datatype UploadResult = NotConfigured | UploadFailed(key: string) | Uploaded(key: string, url: string)

  /** `uploadImageToSupabase`, with the clock and the random suffix as inputs. */
  function UploadImage(
    supabaseUrl: Option<string>, supabaseKey: Option<string>,
    fileName: string, folder: Folder, now: nat, suffix: string, outcome: StorageOutcome): (r: UploadResult)
    ensures r.NotConfigured? <==> !Text.Truthy(supabaseUrl) || !Text.Truthy(supabaseKey)
    ensures !r.NotConfigured? ==> r.key == StorageKey(folder, fileName, now, suffix)
    ensures r.Uploaded? <==> !r.NotConfigured? && outcome.UploadAccepted?
    ensures r.Uploaded? ==> r.url == outcome.publicUrl
  {
    if !Text.Truthy(supabaseUrl) || !Text.Truthy(supabaseKey) then NotConfigured
    else
      var key := StorageKey(folder, fileName, now, suffix);
      match outcome
      case UploadRejected => UploadFailed(key)
      case UploadAccepted(url) => Uploaded(key, url)
  }

  /** What the upload returns to its caller: the public URL, or null. */
  function ReturnedUrl(r: UploadResult): Option<string> {
    if r.Uploaded? then Some(r.url) else None
  }
}

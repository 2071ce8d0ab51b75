/**
 * The records the portfolio creator stores and passes around: the three
 * tables of db/tables.ts (project, section, item), the section keys and
 * template keys, and the parsed item payload.
 */
module Content {
  import opened Wrappers

  type Id = string

  /** Instants are integers; date parsing and ISO formatting are not modelled. */
  type Timestamp = int

  const PROFILE: string := "profile"
  const ABOUT: string := "about"
  const FEATURED_PROJECTS: string := "featuredProjects"
  const EXPERIENCE: string := "experience"
  const SKILLS: string := "skills"
  const EDUCATION: string := "education"
  const CERTIFICATIONS: string := "certifications"
  const ACHIEVEMENTS: string := "achievements"
  const CONTACT: string := "contact"

  /** The nine section keys, in the order a new project lays them out. */
  const SECTION_KEYS: seq<string> :=
    [PROFILE, ABOUT, FEATURED_PROJECTS, EXPERIENCE, SKILLS, EDUCATION, CERTIFICATIONS, ACHIEVEMENTS, CONTACT]

  /** The typed `PortfolioSectionKey`; the stored column itself is free text. */
  type SectionKey = k: string | k in SECTION_KEYS witness PROFILE

  /** `sectionLabels`. */
  function SectionLabel(key: SectionKey): string {
    if key == PROFILE then "Profile"
    else if key == ABOUT then "About"
    else if key == FEATURED_PROJECTS then "Featured Projects"
    else if key == EXPERIENCE then "Experience"
    else if key == SKILLS then "Skills"
    else if key == EDUCATION then "Education"
    else if key == CERTIFICATIONS then "Certifications"
    else if key == ACHIEVEMENTS then "Achievements"
    else "Contact"
  }

  /** `TEMPLATE_KEYS`. */
  const TEMPLATE_KEYS: seq<string> := ["classic", "gallery", "minimal", "story"]

  const PUBLIC: string := "public"
  const UNLISTED: string := "unlisted"
  const PRIVATE: string := "private"

  /** `PortfolioVisibility`. */
  predicate IsVisibility(v: string) {
    v == PUBLIC || v == UNLISTED || v == PRIVATE
  }

  datatype Link = Link(labelText: string, url: string)

  datatype SkillGroup = SkillGroup(name: string, items: seq<string>)

  /**
   * An item's `data`, already parsed from its JSON text. Every field is
   * optional: `None` stands for a field that is absent, `null`, or (for the
   * numeric fields) not a finite number. Which fields matter depends on the
   * key of the section that owns the item.
   */
  datatype ItemData = ItemData(
    fullName: Option<string>, headline: Option<string>, location: Option<string>,
    email: Option<string>, phone: Option<string>, website: Option<string>,
    github: Option<string>, linkedin: Option<string>,
    text: Option<string>,
    groups: Option<seq<SkillGroup>>,
    name: Option<string>, description: Option<string>, link: Option<string>,
    bullets: Option<seq<string>>, tags: Option<seq<string>>,
    role: Option<string>, company: Option<string>, start: Option<string>, end: Option<string>,
    startYear: Option<int>, startMonth: Option<int>, endYear: Option<int>, endMonth: Option<int>,
    isPresent: Option<bool>, present: Option<bool>,
    degree: Option<string>, field: Option<string>, institution: Option<string>, grade: Option<string>,
    title: Option<string>, issuer: Option<string>, year: Option<string>, note: Option<string>,
    callToActionTitle: Option<string>, callToActionText: Option<string>, links: Option<seq<Link>>)

  /** The payload `{}`. */
  const EMPTY_DATA: ItemData := ItemData(
    None, None, None, None, None, None, None, None,
    None,
    None,
    None, None, None, None, None,
    None, None, None, None,
    None, None, None, None, None, None,
    None, None, None, None,
    None, None, None, None,
    None, None, None)

  /** A row of `PortfolioProject`. The profile-photo columns are not modelled. */
  datatype ProjectRow = ProjectRow(
    id: Id, userId: Id, title: string, slug: string, visibility: string,
    isPublished: bool, publishedAt: Option<Timestamp>, themeKey: string,
    createdAt: Timestamp, updatedAt: Timestamp)

  /** A row of `PortfolioSection`. */
  datatype SectionRow = SectionRow(
    id: Id, projectId: Id, key: string, labelText: string, order: int, isEnabled: bool,
    createdAt: Timestamp, updatedAt: Timestamp)

  /** A row of `PortfolioItem`, with its `data` parsed. */
  datatype ItemRow = ItemRow(
    id: Id, sectionId: Id, order: int, data: ItemData, createdAt: Timestamp, updatedAt: Timestamp)

  /** `PortfolioSectionDTO`: a section together with its items. */
  datatype SectionDTO = SectionDTO(
    id: Id, projectId: Id, key: string, labelText: string, order: int, isEnabled: bool, items: seq<ItemRow>)

  /** `PortfolioProjectDetail`. */
  datatype ProjectDetail = ProjectDetail(project: ProjectRow, sections: seq<SectionDTO>)
}

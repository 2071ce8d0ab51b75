/**
 * The content projection of src/modules/portfolio-creator/helpers.ts: the
 * template tier table, text normalisation, month and date-range labels, and
 * `buildPortfolioDataFromSections`, which turns a project's sections (with
 * their items) into the `PortfolioData` the templates render.
 */
module Helpers {
  import opened Wrappers
  import opened Text
  import opened Content

  /** `TEMPLATE_TIER_MAP`: the tier of a known template key, `None` for any other key. */
  function TemplateTier(key: string): Option<string> {
    if key == "classic" || key == "gallery" then Some("free")
    else if key == "minimal" || key == "story" then Some("pro")
    else None
  }

  /** `isProTemplate`: exactly "minimal" and "story" are pro; unknown keys are not. */
  function IsProTemplate(key: string): (r: bool)
    ensures r <==> key == "minimal" || key == "story"
    ensures r ==> key in TEMPLATE_KEYS
  {
    TemplateTier(key) == Some("pro")
  }

  /** `normalizeText`: the trimmed text, "" for a missing value. */
  function NormalizeText(value: Option<string>): (r: string)
    ensures IsTrimmed(r)
    ensures value.None? ==> r == ""
    ensures value.Some? ==> r == Trim(value.value) && |r| <= |value.value|
  {
    if value.Some? then Trim(value.value) else ""
  }

  /** Normalising already normalised text changes nothing. */
  lemma NormalizeTextIdempotent(value: Option<string>)
    ensures NormalizeText(Some(NormalizeText(value))) == NormalizeText(value)
  {
    if value.Some? {
      TrimIdempotent(value.value);
    }
  }

  const MONTH_NAMES: seq<string> :=
    ["Jan", "Feb", "Mar", "Apr", "May", "Jun", "Jul", "Aug", "Sep", "Oct", "Nov", "Dec"]

  /** `monthLabel`: "" unless the value is a month number 1..12, else its three-letter name. */
  function MonthLabel(value: Option<int>): (r: string)
    ensures r == "" <==> value.None? || !(1 <= value.value <= 12)
    ensures r != "" ==> |r| == 3 && r == MONTH_NAMES[value.value - 1]
  {
    if value.None? || value.value == 0 || value.value < 1 || value.value > 12 then ""
    else MONTH_NAMES[value.value - 1]
  }

  /** A year counts as given when it is present and non-zero (JavaScript truthiness). */
  predicate YearGiven(year: Option<int>) {
    year.Some? && year.value != 0
  }

  /** `[monthLabel(month), String(year)].filter(Boolean).join(" ")`: "Mon YYYY", or "YYYY" without a valid month. */
  function MonthYearLabel(month: Option<int>, year: int): (r: string)
    ensures MonthLabel(month) == "" ==> r == IntToString(year)
    ensures MonthLabel(month) != "" ==> r == MonthLabel(month) + " " + IntToString(year)
    ensures r != ""
  {
    var ml, ys := MonthLabel(month), IntToString(year);
    assert [ml, ys][1..] == [ys];
    assert DropEmpty([ys]) == [ys] by { assert [ys][1..] == []; }
    assert ml != "" ==> DropEmpty([ml, ys]) == [ml, ys];
    assert ml == "" ==> DropEmpty([ml, ys]) == [ys];
    assert Join([ys], " ") == ys;
    assert Join([ml, ys], " ") == ml + " " + Join([ys], " ");
    Join(DropEmpty([ml, ys]), " ")
  }

  datatype DateRange = DateRange(start: string, end: string)

  /** `formatRange`. */
  function FormatRange(
    startYear: Option<int>, startMonth: Option<int>, endYear: Option<int>, endMonth: Option<int>,
    isPresent: bool): (r: DateRange)
    ensures isPresent ==> r.end == "Present"
    ensures !isPresent && !YearGiven(endYear) ==> r.end == ""
    ensures !isPresent && YearGiven(endYear) ==> r.end == MonthYearLabel(endMonth, endYear.value) != ""
    ensures r.start == "" <==> !YearGiven(startYear)
    ensures YearGiven(startYear) ==> r.start == MonthYearLabel(startMonth, startYear.value)
  {
    var start := if YearGiven(startYear) then MonthYearLabel(startMonth, startYear.value) else "";
    var end :=
      if isPresent then "Present"
      else if YearGiven(endYear) then MonthYearLabel(endMonth, endYear.value)
      else "";
    DateRange(start, end)
  }

  datatype Profile = Profile(
    fullName: string, headline: string, location: string, email: string,
    phone: string, website: string, github: string, linkedin: string)

  datatype FeaturedProject = FeaturedProject(
    name: string, description: string, link: string, bullets: seq<string>, tags: seq<string>)

  datatype Experience = Experience(
    role: string, company: string, start: string, end: string, location: string, bullets: seq<string>)

  datatype Education = Education(
    degree: string, field: string, institution: string, start: string, end: string, grade: string)

  /** The shape shared by certifications and achievements. */
  datatype Credential = Credential(title: string, issuer: string, year: string, note: string)

  datatype ContactInfo = ContactInfo(
    callToActionTitle: string, callToActionText: string, email: string, website: string, links: seq<Link>)

  /** `PortfolioData`. */
  datatype PortfolioData = PortfolioData(
    profile: Profile, about: string, skills: seq<SkillGroup>,
    featuredProjects: seq<FeaturedProject>, experience: seq<Experience>, education: seq<Education>,
    certifications: seq<Credential>, achievements: seq<Credential>, contact: ContactInfo)

  const DEFAULT_SKILL_GROUPS: seq<SkillGroup> :=
    [SkillGroup("Backend", []), SkillGroup("Frontend", []), SkillGroup("Tools", [])]

  const EMPTY_PROFILE: Profile := Profile("", "", "", "", "", "", "", "")

  const EMPTY_CONTACT: ContactInfo := ContactInfo("", "", "", "", [])

  /** `createEmptyPortfolioData`. */
  function CreateEmptyPortfolioData(): (r: PortfolioData)
    ensures r.featuredProjects == [] && r.experience == [] && r.education == []
    ensures r.certifications == [] && r.achievements == [] && r.contact.links == []
    ensures |r.skills| == 3 && forall i :: 0 <= i < 3 ==> r.skills[i].items == []
  {
    PortfolioData(EMPTY_PROFILE, "", DEFAULT_SKILL_GROUPS, [], [], [], [], [], EMPTY_CONTACT)
  }

  /** The sections whose `isEnabled` holds, in their given order. */
  function EnabledSections(sections: seq<SectionDTO>): (r: seq<SectionDTO>)
    ensures |r| <= |sections|
    ensures forall i :: 0 <= i < |r| ==> r[i].isEnabled && r[i] in sections
  {
    if |sections| == 0 then []
    else if sections[0].isEnabled then [sections[0]] + EnabledSections(sections[1..])
    else EnabledSections(sections[1..])
  }

  /** A section is kept exactly when it is one of the input sections and is enabled. */
  lemma {:induction false} EnabledSectionsExactly(sections: seq<SectionDTO>, s: SectionDTO)
    ensures s in EnabledSections(sections) <==> s in sections && s.isEnabled
  {
    if |sections| > 0 {
      EnabledSectionsExactly(sections[1..], s);
      assert sections == [sections[0]] + sections[1..];
    }
  }

  /** `EnabledSections` works section by section: the enabled ones keep their order. */
  lemma {:induction false} EnabledSectionsAppend(xs: seq<SectionDTO>, ys: seq<SectionDTO>)
    ensures EnabledSections(xs + ys) == EnabledSections(xs) + EnabledSections(ys)
  {
    if |xs| > 0 {
      var zs := xs + ys;
      assert zs[0] == xs[0] && zs[1..] == xs[1..] + ys;
      EnabledSectionsAppend(xs[1..], ys);
      if xs[0].isEnabled {
        assert EnabledSections(zs) == [xs[0]] + EnabledSections(xs[1..] + ys);
        assert EnabledSections(xs) == [xs[0]] + EnabledSections(xs[1..]);
      } else {
        assert EnabledSections(zs) == EnabledSections(xs[1..] + ys);
      }
    } else {
      assert xs + ys == ys;
    }
  }

  /** `getSectionItems`: the items of the first section with the key, or none. */
  function GetSectionItems(sections: seq<SectionDTO>, key: string): (r: seq<ItemRow>)
    ensures (forall i :: 0 <= i < |sections| ==> sections[i].key != key) ==> r == []
  {
    if |sections| == 0 then []
    else if sections[0].key == key then sections[0].items
    else GetSectionItems(sections[1..], key)
  }

  /** `...[0]?.data ?? {}`: the payload of the first item, or the empty payload. */
  function FirstData(items: seq<ItemRow>): ItemData {
    if |items| > 0 then items[0].data else EMPTY_DATA
  }

  /** `normalizeArray`: a list keeps its non-empty entries; a missing list is empty. */
  function NormalizeArray(value: Option<seq<string>>): (r: seq<string>)
    ensures forall i :: 0 <= i < |r| ==> r[i] != ""
    ensures value.None? ==> r == []
    ensures value.Some? ==> forall x :: x in r <==> x in value.value && x != ""
  {
    DropEmpty(value.GetOr([]))
  }

  /** `{ ...base.profile, ...profileItem }`: profile fields are copied untrimmed. */
  function ProfileOf(d: ItemData): (r: Profile)
    ensures (d.fullName.Some? ==> r.fullName == d.fullName.value) && (d.fullName.None? ==> r.fullName == "")
    ensures (d.headline.Some? ==> r.headline == d.headline.value) && (d.headline.None? ==> r.headline == "")
    ensures (d.location.Some? ==> r.location == d.location.value) && (d.location.None? ==> r.location == "")
    ensures (d.email.Some? ==> r.email == d.email.value) && (d.email.None? ==> r.email == "")
    ensures (d.phone.Some? ==> r.phone == d.phone.value) && (d.phone.None? ==> r.phone == "")
    ensures (d.website.Some? ==> r.website == d.website.value) && (d.website.None? ==> r.website == "")
    ensures (d.github.Some? ==> r.github == d.github.value) && (d.github.None? ==> r.github == "")
    ensures (d.linkedin.Some? ==> r.linkedin == d.linkedin.value) && (d.linkedin.None? ==> r.linkedin == "")
    ensures d == EMPTY_DATA ==> r == EMPTY_PROFILE
  {
    Profile(
      d.fullName.GetOr(""), d.headline.GetOr(""), d.location.GetOr(""), d.email.GetOr(""),
      d.phone.GetOr(""), d.website.GetOr(""), d.github.GetOr(""), d.linkedin.GetOr(""))
  }

  /** One skill group: its name through `normalizeText` (for a present string, its trim) and its non-empty items. */
  function SkillGroupOf(g: SkillGroup): (r: SkillGroup)
    ensures r.name == Trim(g.name) && IsTrimmed(r.name)
    ensures r.items == DropEmpty(g.items)
    ensures forall i :: 0 <= i < |r.items| ==> r.items[i] != ""
  {
    SkillGroup(Trim(g.name), DropEmpty(g.items))
  }

  /** The skills block: the stored groups, or the three default groups when there is no list. */
  function SkillsOf(d: ItemData): (r: seq<SkillGroup>)
    ensures d.groups.None? ==> |r| == 3
    ensures d.groups.Some? ==> |r| == |d.groups.value|
    ensures d.groups.Some? ==> forall i :: 0 <= i < |r| ==> r[i] == SkillGroupOf(d.groups.value[i])
    ensures d.groups.None? ==> r == DEFAULT_SKILL_GROUPS
    ensures forall i :: 0 <= i < |r| ==> IsTrimmed(r[i].name)
  {
    var groups := if d.groups.Some? then d.groups.value else DEFAULT_SKILL_GROUPS;
    var r := seq(|groups|, i requires 0 <= i < |groups| => SkillGroupOf(groups[i]));
    if d.groups.None? then
      assert forall i :: 0 <= i < 3 ==> IsTrimmed(DEFAULT_SKILL_GROUPS[i].name);
      forall i | 0 <= i < 3 ensures r[i] == DEFAULT_SKILL_GROUPS[i] {
        PlainGroupKept(DEFAULT_SKILL_GROUPS[i]);
      }
      r
    else
      r
  }

  /** One featured project: its text fields normalised, its lists without empty entries. */
  function FeaturedProjectOf(d: ItemData): (r: FeaturedProject)
    ensures r.name == NormalizeText(d.name) && r.description == NormalizeText(d.description)
    ensures r.link == NormalizeText(d.link)
    ensures r.bullets == NormalizeArray(d.bullets) && r.tags == NormalizeArray(d.tags)
    ensures IsTrimmed(r.name) && IsTrimmed(r.description) && IsTrimmed(r.link)
    ensures d.name.None? ==> r.name == ""
    ensures d.description.None? ==> r.description == ""
    ensures d.link.None? ==> r.link == ""
    ensures forall i :: 0 <= i < |r.bullets| ==> r.bullets[i] != ""
    ensures forall i :: 0 <= i < |r.tags| ==> r.tags[i] != ""
  {
    FeaturedProject(
      NormalizeText(d.name), NormalizeText(d.description), NormalizeText(d.link),
      NormalizeArray(d.bullets), NormalizeArray(d.tags))
  }

  /** `Boolean(data.isPresent ?? data.present)`. */
  function IsPresentOf(d: ItemData): (r: bool)
    ensures r <==> d.isPresent == Some(true) || (d.isPresent.None? && d.present == Some(true))
  {
    if d.isPresent.Some? then d.isPresent.value else d.present.GetOr(false)
  }

  /**
   * One experience entry. Start and end come from the year/month range when
   * a year is given ("Present" for an ongoing role), otherwise from the
   * trimmed free-text start and end.
   */
  function ExperienceOf(d: ItemData): (r: Experience)
    ensures YearGiven(d.startYear) ==> r.start == MonthYearLabel(d.startMonth, d.startYear.value)
    ensures !YearGiven(d.startYear) ==> r.start == NormalizeText(d.start)
    ensures IsPresentOf(d) ==> r.end == "Present"
    ensures !IsPresentOf(d) && YearGiven(d.endYear) ==> r.end == MonthYearLabel(d.endMonth, d.endYear.value)
    ensures !IsPresentOf(d) && !YearGiven(d.endYear) ==> r.end == NormalizeText(d.end)
    ensures r.role == NormalizeText(d.role) && r.company == NormalizeText(d.company)
    ensures r.location == NormalizeText(d.location) && r.bullets == NormalizeArray(d.bullets)
  {
    var range := FormatRange(d.startYear, d.startMonth, d.endYear, d.endMonth, IsPresentOf(d));
    Experience(
      NormalizeText(d.role), NormalizeText(d.company),
      if range.start != "" then range.start else NormalizeText(d.start),
      if range.end != "" then range.end else NormalizeText(d.end),
      NormalizeText(d.location), NormalizeArray(d.bullets))
  }

  /** One education entry: as for experience, but never "Present". */
  function EducationOf(d: ItemData): (r: Education)
    ensures YearGiven(d.startYear) ==> r.start == MonthYearLabel(d.startMonth, d.startYear.value)
    ensures !YearGiven(d.startYear) ==> r.start == NormalizeText(d.start)
    ensures YearGiven(d.endYear) ==> r.end == MonthYearLabel(d.endMonth, d.endYear.value)
    ensures !YearGiven(d.endYear) ==> r.end == NormalizeText(d.end)
    ensures r.degree == NormalizeText(d.degree) && r.field == NormalizeText(d.field)
    ensures r.institution == NormalizeText(d.institution) && r.grade == NormalizeText(d.grade)
  {
    var range := FormatRange(d.startYear, d.startMonth, d.endYear, d.endMonth, false);
    Education(
      NormalizeText(d.degree), NormalizeText(d.field), NormalizeText(d.institution),
      if range.start != "" then range.start else NormalizeText(d.start),
      if range.end != "" then range.end else NormalizeText(d.end),
      NormalizeText(d.grade))
  }

  /** One certification or achievement: every field normalised, "" when missing. */
  function CredentialOf(d: ItemData): (r: Credential)
    ensures r.title == NormalizeText(d.title) && r.issuer == NormalizeText(d.issuer)
    ensures r.year == NormalizeText(d.year) && r.note == NormalizeText(d.note)
    ensures IsTrimmed(r.title) && IsTrimmed(r.issuer) && IsTrimmed(r.year) && IsTrimmed(r.note)
    ensures d.title.None? ==> r.title == ""
    ensures d.issuer.None? ==> r.issuer == ""
    ensures d.year.None? ==> r.year == ""
    ensures d.note.None? ==> r.note == ""
  {
    Credential(NormalizeText(d.title), NormalizeText(d.issuer), NormalizeText(d.year), NormalizeText(d.note))
  }

  /** Label and url both have no whitespace at either end. */
  predicate LinkTrimmed(l: Link) {
    IsTrimmed(l.labelText) && IsTrimmed(l.url)
  }

  /** A link with a label or a url. */
  predicate LinkNonBlank(l: Link) {
    l.labelText != "" || l.url != ""
  }

  /** A link with its label and url trimmed. */
  function TrimLink(l: Link): Link {
    Link(Trim(l.labelText), Trim(l.url))
  }

  /** `links.map(...)`: label and url passed through `normalizeText` (for a present string, its trim). */
  function TrimLinks(links: seq<Link>): (r: seq<Link>)
    ensures |r| == |links|
    ensures forall i :: 0 <= i < |r| ==> r[i] == Link(Trim(links[i].labelText), Trim(links[i].url))
    ensures forall i :: 0 <= i < |r| ==> LinkTrimmed(r[i])
  {
    seq(|links|, i requires 0 <= i < |links| => TrimLink(links[i]))
  }

  /** `TrimLinks` works entry by entry: the result for two lists joined is the two results joined. */
  lemma TrimLinksAppend(xs: seq<Link>, ys: seq<Link>)
    ensures TrimLinks(xs + ys) == TrimLinks(xs) + TrimLinks(ys)
  {
    var zs := xs + ys;
    var l := TrimLinks(zs);
    assert zs[..|xs|] == xs && zs[|xs|..] == ys;
    assert l[..|xs|] == TrimLinks(xs) by {
      forall i | 0 <= i < |xs| ensures l[..|xs|][i] == TrimLinks(xs)[i] {
        assert zs[i] == xs[i];
      }
    }
    assert l[|xs|..] == TrimLinks(ys) by {
      forall i | 0 <= i < |ys| ensures l[|xs|..][i] == TrimLinks(ys)[i] {
        assert zs[|xs| + i] == ys[i];
      }
    }
    assert l == l[..|xs|] + l[|xs|..];
  }

  /** `.filter((link) => link.label || link.url)`: the links with a label or url, in order. */
  function KeepNonBlank(links: seq<Link>): (r: seq<Link>)
    ensures |r| <= |links|
    ensures forall i :: 0 <= i < |r| ==> LinkNonBlank(r[i]) && r[i] in links
    ensures forall l :: l in r <==> l in links && LinkNonBlank(l)
  {
    if |links| == 0 then []
    else if LinkNonBlank(links[0]) then [links[0]] + KeepNonBlank(links[1..])
    else KeepNonBlank(links[1..])
  }

  /** `KeepNonBlank` works link by link: the kept links stay in their order. */
  lemma {:induction false} KeepNonBlankAppend(xs: seq<Link>, ys: seq<Link>)
    ensures KeepNonBlank(xs + ys) == KeepNonBlank(xs) + KeepNonBlank(ys)
  {
    if |xs| > 0 {
      var zs := xs + ys;
      assert zs[0] == xs[0] && zs[1..] == xs[1..] + ys;
      KeepNonBlankAppend(xs[1..], ys);
      if LinkNonBlank(xs[0]) {
        assert KeepNonBlank(zs) == [xs[0]] + KeepNonBlank(xs[1..] + ys);
        assert KeepNonBlank(xs) == [xs[0]] + KeepNonBlank(xs[1..]);
      } else {
        assert KeepNonBlank(zs) == KeepNonBlank(xs[1..] + ys);
      }
    } else {
      assert xs + ys == ys;
    }
  }

  /** The contact links: trimmed, and only those with a label or a url kept. */
  function NormalizeLinks(links: seq<Link>): (r: seq<Link>)
    ensures |r| <= |links|
    ensures forall i :: 0 <= i < |r| ==> LinkNonBlank(r[i]) && LinkTrimmed(r[i])
  {
    var trimmed := TrimLinks(links);
    var r := KeepNonBlank(trimmed);
    assert forall i :: 0 <= i < |r| ==> r[i] in trimmed;
    r
  }

  /**
   * `NormalizeLinks` keeps exactly the trimmed links that still have a label
   * or a url: nothing else appears, and none of them is lost.
   */
  lemma NormalizeLinksExactly(links: seq<Link>, l: Link)
    ensures l in NormalizeLinks(links) <==>
      LinkNonBlank(l) && exists j :: 0 <= j < |links| && l == TrimLink(links[j])
  {
    var trimmed := TrimLinks(links);
    assert NormalizeLinks(links) == KeepNonBlank(trimmed);
    if l in trimmed {
      var j :| 0 <= j < |trimmed| && trimmed[j] == l;
      assert l == TrimLink(links[j]);
    }
    if exists j :: 0 <= j < |links| && l == TrimLink(links[j]) {
      var j :| 0 <= j < |links| && l == TrimLink(links[j]);
      assert trimmed[j] == l;
    }
  }

  /** `NormalizeLinks` works link by link: the kept links stay in their order. */
  lemma NormalizeLinksAppend(xs: seq<Link>, ys: seq<Link>)
    ensures NormalizeLinks(xs + ys) == NormalizeLinks(xs) + NormalizeLinks(ys)
  {
    TrimLinksAppend(xs, ys);
    KeepNonBlankAppend(TrimLinks(xs), TrimLinks(ys));
  }

  /** The contact block: text fields normalised; links trimmed, blank ones dropped, none when missing. */
  function ContactOf(d: ItemData): (r: ContactInfo)
    ensures r.callToActionTitle == NormalizeText(d.callToActionTitle)
    ensures r.callToActionText == NormalizeText(d.callToActionText)
    ensures r.email == NormalizeText(d.email) && r.website == NormalizeText(d.website)
    ensures IsTrimmed(r.callToActionTitle) && IsTrimmed(r.callToActionText)
    ensures IsTrimmed(r.email) && IsTrimmed(r.website)
    ensures d.links.None? ==> r.links == []
    ensures d.links.Some? ==> r.links == NormalizeLinks(d.links.value)
    ensures forall i :: 0 <= i < |r.links| ==> LinkNonBlank(r.links[i]) && LinkTrimmed(r.links[i])
  {
    ContactInfo(
      NormalizeText(d.callToActionTitle), NormalizeText(d.callToActionText),
      NormalizeText(d.email), NormalizeText(d.website),
      if d.links.Some? then NormalizeLinks(d.links.value) else [])
  }

  /** `buildPortfolioDataFromSections`. */
  function BuildPortfolioData(sections: seq<SectionDTO>): (r: PortfolioData)
    ensures IsTrimmed(r.about)
    ensures forall i :: 0 <= i < |r.contact.links| ==> LinkNonBlank(r.contact.links[i]) && LinkTrimmed(r.contact.links[i])
  {
    var enabled := EnabledSections(sections);
    var projects := GetSectionItems(enabled, FEATURED_PROJECTS);
    var experience := GetSectionItems(enabled, EXPERIENCE);
    var education := GetSectionItems(enabled, EDUCATION);
    var certifications := GetSectionItems(enabled, CERTIFICATIONS);
    var achievements := GetSectionItems(enabled, ACHIEVEMENTS);
    PortfolioData(
      ProfileOf(FirstData(GetSectionItems(enabled, PROFILE))),
      NormalizeText(FirstData(GetSectionItems(enabled, ABOUT)).text),
      SkillsOf(FirstData(GetSectionItems(enabled, SKILLS))),
      seq(|projects|, i requires 0 <= i < |projects| => FeaturedProjectOf(projects[i].data)),
      seq(|experience|, i requires 0 <= i < |experience| => ExperienceOf(experience[i].data)),
      seq(|education|, i requires 0 <= i < |education| => EducationOf(education[i].data)),
      seq(|certifications|, i requires 0 <= i < |certifications| => CredentialOf(certifications[i].data)),
      seq(|achievements|, i requires 0 <= i < |achievements| => CredentialOf(achievements[i].data)),
      ContactOf(FirstData(GetSectionItems(enabled, CONTACT))))
  }

  /** Each collection of the projection holds one entry per item of its enabled section, and every skill name is trimmed. */
  lemma BuildPortfolioDataShape(sections: seq<SectionDTO>)
    ensures var r, enabled := BuildPortfolioData(sections), EnabledSections(sections);
      && |r.featuredProjects| == |GetSectionItems(enabled, FEATURED_PROJECTS)|
      && |r.experience| == |GetSectionItems(enabled, EXPERIENCE)|
      && |r.education| == |GetSectionItems(enabled, EDUCATION)|
      && |r.certifications| == |GetSectionItems(enabled, CERTIFICATIONS)|
      && |r.achievements| == |GetSectionItems(enabled, ACHIEVEMENTS)|
      && forall i :: 0 <= i < |r.skills| ==> IsTrimmed(r.skills[i].name)
  {
    var r, enabled := BuildPortfolioData(sections), EnabledSections(sections);
    assert r.skills == SkillsOf(FirstData(GetSectionItems(enabled, SKILLS)));
  }

  /** Some enabled section carries the key. */
  predicate HasEnabledSection(sections: seq<SectionDTO>, key: string) {
    exists i :: 0 <= i < |sections| && sections[i].isEnabled && sections[i].key == key
  }

  /** Filtering an already filtered list changes nothing. */
  lemma {:induction false} EnabledSectionsIdempotent(sections: seq<SectionDTO>)
    ensures EnabledSections(EnabledSections(sections)) == EnabledSections(sections)
  {
    if |sections| > 0 {
      EnabledSectionsIdempotent(sections[1..]);
      if sections[0].isEnabled {
        assert ([sections[0]] + EnabledSections(sections[1..]))[1..] == EnabledSections(sections[1..]);
      }
    }
  }

  /** Disabled sections play no part: building from all sections equals building from the enabled ones. */
  lemma BuildIgnoresDisabledSections(sections: seq<SectionDTO>)
    ensures BuildPortfolioData(sections) == BuildPortfolioData(EnabledSections(sections))
  {
    EnabledSectionsIdempotent(sections);
  }

  /** Without an enabled section for a key, the key has no items to contribute. */
  lemma NoEnabledSectionNoItems(sections: seq<SectionDTO>, key: string)
    requires !HasEnabledSection(sections, key)
    ensures GetSectionItems(EnabledSections(sections), key) == []
  {
    var enabled := EnabledSections(sections);
    forall i | 0 <= i < |enabled| ensures enabled[i].key != key {
      var j :| 0 <= j < |sections| && sections[j] == enabled[i];
    }
  }

  /** A group with a trimmed name and no items is left as it is. */
  lemma PlainGroupKept(g: SkillGroup)
    requires IsTrimmed(g.name) && g.items == []
    ensures SkillGroupOf(g) == g
  {
    TrimmedIsFixed(g.name);
  }

  /** Normalising the three default groups leaves them as they are. */
  lemma DefaultSkillsKept()
    ensures SkillsOf(EMPTY_DATA) == DEFAULT_SKILL_GROUPS
  {
    var r := SkillsOf(EMPTY_DATA);
    forall i | 0 <= i < 3 ensures r[i] == DEFAULT_SKILL_GROUPS[i] {
      PlainGroupKept(DEFAULT_SKILL_GROUPS[i]);
    }
  }

  /**
   * A singleton key (profile, about, skills, contact) whose sections are all
   * disabled or absent gets the value `createEmptyPortfolioData` gives it.
   */
  lemma DisabledSingletonContributesNothing(sections: seq<SectionDTO>)
    ensures var data, empty := BuildPortfolioData(sections), CreateEmptyPortfolioData();
      && (!HasEnabledSection(sections, PROFILE) ==> data.profile == empty.profile)
      && (!HasEnabledSection(sections, ABOUT) ==> data.about == empty.about)
      && (!HasEnabledSection(sections, SKILLS) ==> data.skills == empty.skills)
      && (!HasEnabledSection(sections, CONTACT) ==> data.contact == empty.contact)
  {
    var data := BuildPortfolioData(sections);
    if !HasEnabledSection(sections, PROFILE) {
      NoEnabledSectionNoItems(sections, PROFILE);
    }
    if !HasEnabledSection(sections, ABOUT) {
      NoEnabledSectionNoItems(sections, ABOUT);
    }
    if !HasEnabledSection(sections, SKILLS) {
      NoEnabledSectionNoItems(sections, SKILLS);
      DefaultSkillsKept();
    }
    if !HasEnabledSection(sections, CONTACT) {
      NoEnabledSectionNoItems(sections, CONTACT);
    }
  }

  /**
   * A collection key whose sections are all disabled or absent gets the empty
   * list, as in `createEmptyPortfolioData`.
   */
  lemma DisabledCollectionContributesNothing(sections: seq<SectionDTO>)
    ensures var data := BuildPortfolioData(sections);
      && (!HasEnabledSection(sections, FEATURED_PROJECTS) ==> data.featuredProjects == [])
      && (!HasEnabledSection(sections, EXPERIENCE) ==> data.experience == [])
      && (!HasEnabledSection(sections, EDUCATION) ==> data.education == [])
      && (!HasEnabledSection(sections, CERTIFICATIONS) ==> data.certifications == [])
      && (!HasEnabledSection(sections, ACHIEVEMENTS) ==> data.achievements == [])
  {
    if !HasEnabledSection(sections, FEATURED_PROJECTS) {
      NoEnabledSectionNoItems(sections, FEATURED_PROJECTS);
    }
    if !HasEnabledSection(sections, EXPERIENCE) {
      NoEnabledSectionNoItems(sections, EXPERIENCE);
    }
    if !HasEnabledSection(sections, EDUCATION) {
      NoEnabledSectionNoItems(sections, EDUCATION);
    }
    if !HasEnabledSection(sections, CERTIFICATIONS) {
      NoEnabledSectionNoItems(sections, CERTIFICATIONS);
    }
    if !HasEnabledSection(sections, ACHIEVEMENTS) {
      NoEnabledSectionNoItems(sections, ACHIEVEMENTS);
    }
  }

  /** The first enabled section with the key is the one whose items are used. */
  lemma {:induction false} FirstEnabledSectionSupplies(sections: seq<SectionDTO>, key: string, j: nat)
    requires j < |sections| && sections[j].isEnabled && sections[j].key == key
    requires forall i :: 0 <= i < j ==> !(sections[i].isEnabled && sections[i].key == key)
    ensures GetSectionItems(EnabledSections(sections), key) == sections[j].items
  {
    if j > 0 {
      FirstEnabledSectionSupplies(sections[1..], key, j - 1);
    }
  }

  /**
   * Each collection field has one entry per item of the first enabled section
   * with its key, in item order (shown for experience and featured projects;
   * the other collections are built the same way).
   */
  lemma CollectionFollowsItems(sections: seq<SectionDTO>, j: nat)
    requires j < |sections| && sections[j].isEnabled
    requires forall i :: 0 <= i < j ==> !(sections[i].isEnabled && sections[i].key == sections[j].key)
    ensures var data, items := BuildPortfolioData(sections), sections[j].items;
      && (sections[j].key == EXPERIENCE ==>
            |data.experience| == |items|
            && forall k :: 0 <= k < |items| ==> data.experience[k] == ExperienceOf(items[k].data))
      && (sections[j].key == FEATURED_PROJECTS ==>
            |data.featuredProjects| == |items|
            && forall k :: 0 <= k < |items| ==> data.featuredProjects[k] == FeaturedProjectOf(items[k].data))
      && (sections[j].key == EDUCATION ==>
            |data.education| == |items|
            && forall k :: 0 <= k < |items| ==> data.education[k] == EducationOf(items[k].data))
      && (sections[j].key == CERTIFICATIONS ==>
            |data.certifications| == |items|
            && forall k :: 0 <= k < |items| ==> data.certifications[k] == CredentialOf(items[k].data))
      && (sections[j].key == ACHIEVEMENTS ==>
            |data.achievements| == |items|
            && forall k :: 0 <= k < |items| ==> data.achievements[k] == CredentialOf(items[k].data))
  {
    var data, items := BuildPortfolioData(sections), sections[j].items;
    FirstEnabledSectionSupplies(sections, sections[j].key, j);
    if sections[j].key == EXPERIENCE {
      assert data.experience == seq(|items|, k requires 0 <= k < |items| => ExperienceOf(items[k].data));
    } else if sections[j].key == FEATURED_PROJECTS {
      assert data.featuredProjects == seq(|items|, k requires 0 <= k < |items| => FeaturedProjectOf(items[k].data));
    } else if sections[j].key == EDUCATION {
      assert data.education == seq(|items|, k requires 0 <= k < |items| => EducationOf(items[k].data));
    } else if sections[j].key == CERTIFICATIONS {
      assert data.certifications == seq(|items|, k requires 0 <= k < |items| => CredentialOf(items[k].data));
    } else if sections[j].key == ACHIEVEMENTS {
      assert data.achievements == seq(|items|, k requires 0 <= k < |items| => CredentialOf(items[k].data));
    }
  }

  /** Every link in the contact block has a label or a url, and both are trimmed. */
  lemma ContactLinksNonBlank(sections: seq<SectionDTO>)
    ensures var links := BuildPortfolioData(sections).contact.links;
      forall i :: 0 <= i < |links| ==>
        LinkNonBlank(links[i]) && LinkTrimmed(links[i])
  {
  }
}

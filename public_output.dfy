/**
 * src/modules/portfolio-creator/publicOutput.ts: the versioned public
 * document a published portfolio is rendered from. It re-cleans the content
 * projection of Helpers, normalises link targets, drops blank entries and
 * lists the enabled sections a template may show.
 */
module PublicOutput {
  import opened Wrappers
  import opened Text
  import opened Content
  import opened Helpers

  /** The section keys a public document may show: every key except "profile". */
  const PUBLIC_SECTION_KEYS: seq<string> :=
    [ABOUT, FEATURED_PROJECTS, EXPERIENCE, SKILLS, EDUCATION, CERTIFICATIONS, ACHIEVEMENTS, CONTACT]

  /** `toTemplateKey`: the trimmed key when it names a template, else "classic". */
  function ToTemplateKey(value: string): (r: string)
    ensures r in TEMPLATE_KEYS
    ensures Trim(value) in TEMPLATE_KEYS ==> r == Trim(value)
    ensures Trim(value) !in TEMPLATE_KEYS ==> r == "classic"
  {
    var candidate := Trim(value);
    if candidate in TEMPLATE_KEYS then candidate else "classic"
  }

  /** `toSectionKey`: the trimmed key when a public document may show it, else nothing. */
  function ToSectionKey(value: string): (r: Option<string>)
    ensures r.Some? <==> Trim(value) in PUBLIC_SECTION_KEYS
    ensures r.Some? ==> r.value == Trim(value) && r.value != PROFILE
  {
    var candidate := Trim(value);
    if candidate in PUBLIC_SECTION_KEYS then Some(candidate) else None
  }

  /** The case-insensitive `/^(mailto:|tel:|https?:\/\/)/i` test. */
  predicate HasLinkScheme(s: string) {
    StartsWithIgnoreCase(s, "mailto:") || StartsWithIgnoreCase(s, "tel:")
    || StartsWithIgnoreCase(s, "http://") || StartsWithIgnoreCase(s, "https://")
  }

  /** `replace(/^\/+/, "")`: `s` without its leading slashes. */
  function StripLeadingSlashes(s: string): (r: string)
    ensures |r| <= |s|
    ensures |r| > 0 ==> r[0] != '/' && r[|r| - 1] == s[|s| - 1]
  {
    if |s| > 0 && s[0] == '/' then StripLeadingSlashes(s[1..]) else s
  }

  /** `normalizeHref`. */
  function NormalizeHref(value: string): (r: string)
    ensures Trim(value) == "" ==> r == ""
    ensures Trim(value) != "" && HasLinkScheme(Trim(value)) ==> r == Trim(value)
    ensures Trim(value) != "" && !HasLinkScheme(Trim(value)) ==>
      r == "https://" + StripLeadingSlashes(Trim(value))
    ensures r == "" <==> Trim(value) == ""
  {
    var raw := Trim(value);
    if raw == "" then ""
    else if HasLinkScheme(raw) then raw
    else "https://" + StripLeadingSlashes(raw)
  }

  /** A normalised href has no whitespace at either end and carries a scheme unless it is empty. */
  lemma NormalizeHrefShape(value: string)
    ensures var r := NormalizeHref(value); IsTrimmed(r) && (r != "" ==> HasLinkScheme(r))
  {
    var raw := Trim(value);
    if raw != "" && !HasLinkScheme(raw) {
      var rest := StripLeadingSlashes(raw);
      var r := "https://" + rest;
      assert r[..8] == "https://";
      assert Lower("https://") == "https://";
      assert StartsWithIgnoreCase(r, "https://");
      if |rest| > 0 {
        assert r[|r| - 1] == rest[|rest| - 1] == raw[|raw| - 1];
      }
      assert r[0] == 'h';
    }
  }

  /** `normalizeHref` is idempotent. */
  lemma NormalizeHrefIdempotent(value: string)
    ensures NormalizeHref(NormalizeHref(value)) == NormalizeHref(value)
  {
    var r := NormalizeHref(value);
    NormalizeHrefShape(value);
    TrimmedIsFixed(r);
  }

  /** `clean` on each entry, then `filter(Boolean)`: the trimmed, non-empty entries. */
  function CleanList(xs: seq<string>): (r: seq<string>)
    ensures |r| <= |xs|
    ensures forall i :: 0 <= i < |r| ==> r[i] != "" && IsTrimmed(r[i])
  {
    var trimmed := TrimAll(xs);
    var r := DropEmpty(trimmed);
    assert forall i :: 0 <= i < |r| ==> r[i] in trimmed;
    r
  }

  /** An entry is kept exactly when it is the non-empty trim of some input entry. */
  lemma CleanListExactly(xs: seq<string>, x: string)
    ensures x in CleanList(xs) <==> x != "" && exists i :: 0 <= i < |xs| && Trim(xs[i]) == x
  {
    var trimmed := TrimAll(xs);
    if x in trimmed {
      var i :| 0 <= i < |trimmed| && trimmed[i] == x;
      assert Trim(xs[i]) == x;
    }
    if exists i :: 0 <= i < |xs| && Trim(xs[i]) == x {
      var i :| 0 <= i < |xs| && Trim(xs[i]) == x;
      assert trimmed[i] == x;
    }
  }

  /** `CleanList` works entry by entry: the kept entries stay in their order. */
  lemma CleanListAppend(xs: seq<string>, ys: seq<string>)
    ensures CleanList(xs + ys) == CleanList(xs) + CleanList(ys)
  {
    TrimAllAppend(xs, ys);
    DropEmptyAppend(TrimAll(xs), TrimAll(ys));
  }

  /** Cleaning a list twice gives what cleaning it once gives. */
  lemma CleanListIdempotent(xs: seq<string>)
    ensures CleanList(CleanList(xs)) == CleanList(xs)
  {
    var r := CleanList(xs);
    TrimAllKeepsTrimmed(r);
    DropEmptyKeepsNonEmpty(r);
  }

  datatype PublicLink = PublicLink(labelText: string, href: string)

  /** One contact link: the normalised href, and the label falling back to the url. */
  function PublicLinkOf(l: Link): (r: PublicLink)
    ensures r.href == NormalizeHref(l.url)
    ensures Trim(l.labelText) != "" ==> r.labelText == Trim(l.labelText)
    ensures Trim(l.labelText) == "" ==> r.labelText == Trim(l.url)
    ensures r.href != "" <==> Trim(l.url) != ""
    ensures r.href != "" ==> r.labelText != ""
  {
    var labelText := if Trim(l.labelText) != "" then Trim(l.labelText) else Trim(l.url);
    PublicLink(labelText, NormalizeHref(l.url))
  }

  /** `links.map(...)`: the public form of every contact link, in order. */
  function PublicFormsOf(links: seq<Link>): (r: seq<PublicLink>)
    ensures |r| == |links|
    ensures forall i :: 0 <= i < |links| ==> r[i] == PublicLinkOf(links[i])
  {
    seq(|links|, i requires 0 <= i < |links| => PublicLinkOf(links[i]))
  }

  /** `PublicFormsOf` works entry by entry: the result for two lists joined is the two results joined. */
  lemma PublicFormsOfAppend(xs: seq<Link>, ys: seq<Link>)
    ensures PublicFormsOf(xs + ys) == PublicFormsOf(xs) + PublicFormsOf(ys)
  {
    var zs := xs + ys;
    var l := PublicFormsOf(zs);
    assert zs[..|xs|] == xs && zs[|xs|..] == ys;
    assert l[..|xs|] == PublicFormsOf(xs) by {
      forall i | 0 <= i < |xs| ensures l[..|xs|][i] == PublicFormsOf(xs)[i] {
        assert zs[i] == xs[i];
      }
    }
    assert l[|xs|..] == PublicFormsOf(ys) by {
      forall i | 0 <= i < |ys| ensures l[|xs|..][i] == PublicFormsOf(ys)[i] {
        assert zs[|xs| + i] == ys[i];
      }
    }
    assert l == l[..|xs|] + l[|xs|..];
  }

  /** A public link the document keeps: one with an href. */
  predicate HasHref(p: PublicLink) {
    p.href != ""
  }

  /** `.filter((link) => link.href)`: the public links that have an href, in order. */
  function KeepWithHref(ps: seq<PublicLink>): (r: seq<PublicLink>)
    ensures |r| <= |ps|
    ensures forall i :: 0 <= i < |r| ==> HasHref(r[i]) && r[i] in ps
    ensures forall p :: p in r <==> p in ps && HasHref(p)
  {
    if |ps| == 0 then []
    else if HasHref(ps[0]) then [ps[0]] + KeepWithHref(ps[1..])
    else KeepWithHref(ps[1..])
  }

  /** `KeepWithHref` works link by link: the kept links stay in their order. */
  lemma {:induction false} KeepWithHrefAppend(xs: seq<PublicLink>, ys: seq<PublicLink>)
    ensures KeepWithHref(xs + ys) == KeepWithHref(xs) + KeepWithHref(ys)
  {
    if |xs| > 0 {
      var zs := xs + ys;
      assert zs[0] == xs[0] && zs[1..] == xs[1..] + ys;
      KeepWithHrefAppend(xs[1..], ys);
      if HasHref(xs[0]) {
        assert KeepWithHref(zs) == [xs[0]] + KeepWithHref(xs[1..] + ys);
        assert KeepWithHref(xs) == [xs[0]] + KeepWithHref(xs[1..]);
      } else {
        assert KeepWithHref(zs) == KeepWithHref(xs[1..] + ys);
      }
    } else {
      assert xs + ys == ys;
    }
  }

  /** The contact links of the public document: those whose href is non-empty. */
  function PublicLinks(links: seq<Link>): (r: seq<PublicLink>)
    ensures |r| <= |links|
    ensures forall i :: 0 <= i < |r| ==> r[i].href != "" && r[i].labelText != ""
    ensures forall j :: 0 <= j < |links| && Trim(links[j].url) != "" ==> PublicLinkOf(links[j]) in r
  {
    var forms := PublicFormsOf(links);
    var r := KeepWithHref(forms);
    forall i | 0 <= i < |r| ensures r[i].href != "" && r[i].labelText != "" {
      assert r[i] in forms;
      var j :| 0 <= j < |forms| && forms[j] == r[i];
    }
    forall j | 0 <= j < |links| && Trim(links[j].url) != "" ensures PublicLinkOf(links[j]) in r {
      assert forms[j] == PublicLinkOf(links[j]);
    }
    r
  }

  /** A link is kept exactly when it is the public form of some input link and its href is non-empty. */
  lemma PublicLinksExactly(links: seq<Link>, p: PublicLink)
    ensures p in PublicLinks(links) <==> p.href != "" && exists j :: 0 <= j < |links| && PublicLinkOf(links[j]) == p
  {
    var forms := PublicFormsOf(links);
    assert PublicLinks(links) == KeepWithHref(forms);
    if p in forms {
      var j :| 0 <= j < |forms| && forms[j] == p;
      assert PublicLinkOf(links[j]) == p;
    }
    if exists j :: 0 <= j < |links| && PublicLinkOf(links[j]) == p {
      var j :| 0 <= j < |links| && PublicLinkOf(links[j]) == p;
      assert forms[j] == p;
    }
  }

  /** `PublicLinks` works link by link: the kept links stay in their order. */
  lemma PublicLinksAppend(xs: seq<Link>, ys: seq<Link>)
    ensures PublicLinks(xs + ys) == PublicLinks(xs) + PublicLinks(ys)
  {
    PublicFormsOfAppend(xs, ys);
    KeepWithHrefAppend(PublicFormsOf(xs), PublicFormsOf(ys));
  }

  datatype PublicSkillGroup = PublicSkillGroup(name: string, items: seq<string>)

  /** One skill group of the document: its trimmed name and its cleaned items. */
  function PublicSkillGroupOf(g: SkillGroup): (r: PublicSkillGroup)
    ensures r.name == Trim(g.name) && IsTrimmed(r.name)
    ensures r.items == CleanList(g.items)
    ensures forall k :: 0 <= k < |r.items| ==> r.items[k] != "" && IsTrimmed(r.items[k])
    ensures forall x :: x in r.items ==> exists i :: 0 <= i < |g.items| && Trim(g.items[i]) == x
  {
    var r := PublicSkillGroup(Trim(g.name), CleanList(g.items));
    forall x | x in r.items ensures exists i :: 0 <= i < |g.items| && Trim(g.items[i]) == x {
      CleanListExactly(g.items, x);
    }
    r
  }

  /** A skill group the document shows: one with a name or an item. */
  predicate SkillGroupShown(g: PublicSkillGroup) {
    g.name != "" || |g.items| > 0
  }

  /** The skill groups, cleaned, with those that have neither a name nor an item dropped. */
  function PublicSkills(groups: seq<SkillGroup>): (r: seq<PublicSkillGroup>)
    ensures |r| <= |groups|
    ensures forall i :: 0 <= i < |r| ==> r[i].name != "" || |r[i].items| > 0
    ensures forall i :: 0 <= i < |r| ==> IsTrimmed(r[i].name)
    ensures forall i, k :: 0 <= i < |r| && 0 <= k < |r[i].items| ==> r[i].items[k] != ""
  {
    if |groups| == 0 then []
    else
      var g := PublicSkillGroupOf(groups[0]);
      var rest := PublicSkills(groups[1..]);
      if SkillGroupShown(g) then [g] + rest else rest
  }

  /** A group is kept exactly when it is the cleaned form of some input group and it is shown. */
  lemma {:induction false} PublicSkillsExactly(groups: seq<SkillGroup>, p: PublicSkillGroup)
    ensures p in PublicSkills(groups) <==>
      SkillGroupShown(p) && exists j :: 0 <= j < |groups| && PublicSkillGroupOf(groups[j]) == p
  {
    if |groups| > 0 {
      PublicSkillsExactly(groups[1..], p);
      if exists j :: 0 <= j < |groups| && PublicSkillGroupOf(groups[j]) == p {
        var j :| 0 <= j < |groups| && PublicSkillGroupOf(groups[j]) == p;
        if j > 0 {
          assert groups[1..][j - 1] == groups[j];
        }
      }
      if exists j :: 0 <= j < |groups[1..]| && PublicSkillGroupOf(groups[1..][j]) == p {
        var j :| 0 <= j < |groups[1..]| && PublicSkillGroupOf(groups[1..][j]) == p;
        assert groups[j + 1] == groups[1..][j];
      }
    }
  }

  /** `PublicSkills` works group by group: the kept groups stay in their order. */
  lemma {:induction false} PublicSkillsAppend(xs: seq<SkillGroup>, ys: seq<SkillGroup>)
    ensures PublicSkills(xs + ys) == PublicSkills(xs) + PublicSkills(ys)
  {
    if |xs| > 0 {
      var zs := xs + ys;
      assert zs[0] == xs[0] && zs[1..] == xs[1..] + ys;
      PublicSkillsAppend(xs[1..], ys);
      if SkillGroupShown(PublicSkillGroupOf(xs[0])) {
        assert PublicSkills(zs) == [PublicSkillGroupOf(xs[0])] + PublicSkills(xs[1..] + ys);
        assert PublicSkills(xs) == [PublicSkillGroupOf(xs[0])] + PublicSkills(xs[1..]);
      } else {
        assert PublicSkills(zs) == PublicSkills(xs[1..] + ys);
      }
    } else {
      assert xs + ys == ys;
    }
  }

  /**
   * `visibleSections`: the keys of the enabled sections, trimmed, in input
   * order, keeping only keys a public document may show.
   */
  function VisibleSections(sections: seq<SectionDTO>): (r: seq<string>)
    ensures |r| <= |sections|
    ensures forall i :: 0 <= i < |r| ==> r[i] in PUBLIC_SECTION_KEYS
  {
    if |sections| == 0 then []
    else
      var key := ToSectionKey(sections[0].key);
      var rest := VisibleSections(sections[1..]);
      if sections[0].isEnabled && key.Some? then [key.value] + rest else rest
  }

  /** Some enabled section carries the key, up to whitespace. */
  predicate ShowsKey(sections: seq<SectionDTO>, k: string) {
    exists i :: 0 <= i < |sections| && sections[i].isEnabled && Trim(sections[i].key) == k
  }

  /** A non-empty list shows a key when its head does or its tail does. */
  lemma ShowsKeySplit(sections: seq<SectionDTO>, k: string)
    requires |sections| > 0
    ensures ShowsKey(sections, k) <==>
      (sections[0].isEnabled && Trim(sections[0].key) == k) || ShowsKey(sections[1..], k)
  {
    if ShowsKey(sections, k) {
      var i :| 0 <= i < |sections| && sections[i].isEnabled && Trim(sections[i].key) == k;
      if i > 0 {
        assert sections[1..][i - 1] == sections[i];
      }
    }
    if ShowsKey(sections[1..], k) {
      var i :| 0 <= i < |sections[1..]| && sections[1..][i].isEnabled && Trim(sections[1..][i].key) == k;
      assert sections[i + 1] == sections[1..][i];
    }
  }

  /** A key is visible exactly when some enabled section carries it (up to whitespace) and it is public. */
  lemma {:induction false} VisibleSectionsExactly(sections: seq<SectionDTO>, k: string)
    ensures k in VisibleSections(sections) <==>
      k in PUBLIC_SECTION_KEYS
      && exists i :: 0 <= i < |sections| && sections[i].isEnabled && Trim(sections[i].key) == k
  {
    if |sections| > 0 {
      VisibleSectionsExactly(sections[1..], k);
      ShowsKeySplit(sections, k);
    }
    assert ShowsKey(sections, k) <==>
      exists i :: 0 <= i < |sections| && sections[i].isEnabled && Trim(sections[i].key) == k;
  }

  /** `VisibleSections` works section by section: the visible keys keep the order of their sections. */
  lemma {:induction false} VisibleSectionsAppend(xs: seq<SectionDTO>, ys: seq<SectionDTO>)
    ensures VisibleSections(xs + ys) == VisibleSections(xs) + VisibleSections(ys)
  {
    if |xs| > 0 {
      var zs := xs + ys;
      assert zs[0] == xs[0] && zs[1..] == xs[1..] + ys;
      VisibleSectionsAppend(xs[1..], ys);
      if xs[0].isEnabled && ToSectionKey(xs[0].key).Some? {
        assert VisibleSections(zs) == [ToSectionKey(xs[0].key).value] + VisibleSections(xs[1..] + ys);
        assert VisibleSections(xs) == [ToSectionKey(xs[0].key).value] + VisibleSections(xs[1..]);
      } else {
        assert VisibleSections(zs) == VisibleSections(xs[1..] + ys);
      }
    } else {
      assert xs + ys == ys;
    }
  }

  /** A profile section never shows up among the visible sections. */
  lemma ProfileNeverVisible(sections: seq<SectionDTO>)
    ensures PROFILE !in VisibleSections(sections)
  {
    assert PROFILE !in PUBLIC_SECTION_KEYS;
  }

  datatype PublicOwner = PublicOwner(fullName: string, headline: string, summary: string, location: string)

  datatype PublicContact = PublicContact(
    email: string, phone: string, website: string, github: string, linkedin: string,
    callToActionTitle: string, callToActionText: string, links: seq<PublicLink>)

  datatype PublicProject = PublicProject(
    name: string, description: string, link: string, bullets: seq<string>, tags: seq<string>)

  datatype PublicExperience = PublicExperience(
    role: string, company: string, location: string, start: string, end: string, bullets: seq<string>)

  datatype PublicEducation = PublicEducation(
    degree: string, field: string, institution: string, start: string, end: string, grade: string)

  datatype PublicCredential = PublicCredential(title: string, issuer: string, year: string, note: string)

  datatype PublicSections = PublicSections(
    about: string, featuredProjects: seq<PublicProject>, experience: seq<PublicExperience>,
    skills: seq<PublicSkillGroup>, education: seq<PublicEducation>,
    certifications: seq<PublicCredential>, achievements: seq<PublicCredential>)

  /** `meta`, without `lastUpdatedLabel` (a locale-formatted date). */
  datatype PublicMeta = PublicMeta(
    title: string, slug: string, visibility: string, publishedAt: Option<Timestamp>, updatedAt: Timestamp)

  /** `PortfolioPublicData`. */
  datatype PortfolioPublicData = PortfolioPublicData(
    version: string, templateKey: string, owner: PublicOwner, contact: PublicContact,
    sections: PublicSections, visibleSections: seq<string>, meta: PublicMeta)

  /** `a || b` on two cleaned strings: the first unless it is empty. */
  function Prefer(a: string, b: string): (r: string)
    ensures IsTrimmed(r)
    ensures r == "" <==> Trim(a) == "" && Trim(b) == ""
    ensures Trim(a) != "" ==> r == Trim(a)
  {
    if Trim(a) != "" then Trim(a) else Trim(b)
  }

  /** One featured project of the document: trimmed text, a normalised link, cleaned bullets and tags. */
  function PublicProjectOf(p: FeaturedProject): (r: PublicProject)
    ensures r.name == Trim(p.name) && r.description == Trim(p.description)
    ensures r.link == NormalizeHref(p.link)
    ensures r.bullets == CleanList(p.bullets) && r.tags == CleanList(p.tags)
    ensures IsTrimmed(r.name) && IsTrimmed(r.description)
    ensures forall k :: 0 <= k < |r.bullets| ==> r.bullets[k] != "" && IsTrimmed(r.bullets[k])
    ensures forall k :: 0 <= k < |r.tags| ==> r.tags[k] != "" && IsTrimmed(r.tags[k])
  {
    PublicProject(Trim(p.name), Trim(p.description), NormalizeHref(p.link), CleanList(p.bullets), CleanList(p.tags))
  }

  /** One experience entry of the document: trimmed text and cleaned bullets. */
  function PublicExperienceOf(e: Experience): (r: PublicExperience)
    ensures r.role == Trim(e.role) && r.company == Trim(e.company) && r.location == Trim(e.location)
    ensures r.start == Trim(e.start) && r.end == Trim(e.end)
    ensures r.bullets == CleanList(e.bullets)
    ensures IsTrimmed(r.role) && IsTrimmed(r.company) && IsTrimmed(r.location)
    ensures IsTrimmed(r.start) && IsTrimmed(r.end)
    ensures forall k :: 0 <= k < |r.bullets| ==> r.bullets[k] != "" && IsTrimmed(r.bullets[k])
  {
    PublicExperience(Trim(e.role), Trim(e.company), Trim(e.location), Trim(e.start), Trim(e.end), CleanList(e.bullets))
  }

  /** One education entry of the document: every field trimmed. */
  function PublicEducationOf(e: Education): (r: PublicEducation)
    ensures r.degree == Trim(e.degree) && r.field == Trim(e.field) && r.institution == Trim(e.institution)
    ensures r.start == Trim(e.start) && r.end == Trim(e.end) && r.grade == Trim(e.grade)
    ensures IsTrimmed(r.degree) && IsTrimmed(r.field) && IsTrimmed(r.institution)
    ensures IsTrimmed(r.start) && IsTrimmed(r.end) && IsTrimmed(r.grade)
  {
    PublicEducation(Trim(e.degree), Trim(e.field), Trim(e.institution), Trim(e.start), Trim(e.end), Trim(e.grade))
  }

  /** One certification or achievement of the document: every field trimmed. */
  function PublicCredentialOf(c: Credential): (r: PublicCredential)
    ensures r.title == Trim(c.title) && r.issuer == Trim(c.issuer)
    ensures r.year == Trim(c.year) && r.note == Trim(c.note)
    ensures IsTrimmed(r.title) && IsTrimmed(r.issuer) && IsTrimmed(r.year) && IsTrimmed(r.note)
  {
    PublicCredential(Trim(c.title), Trim(c.issuer), Trim(c.year), Trim(c.note))
  }

  /** The `sections` block, built from the content projection. */
  function PublicSectionsOf(data: PortfolioData): (r: PublicSections)
    ensures r.about == Trim(data.about) && IsTrimmed(r.about)
    ensures |r.featuredProjects| == |data.featuredProjects| && |r.experience| == |data.experience|
    ensures |r.education| == |data.education|
    ensures |r.certifications| == |data.certifications| && |r.achievements| == |data.achievements|
    ensures forall i :: 0 <= i < |r.featuredProjects| ==> r.featuredProjects[i] == PublicProjectOf(data.featuredProjects[i])
    ensures forall i :: 0 <= i < |r.experience| ==> r.experience[i] == PublicExperienceOf(data.experience[i])
    ensures forall i :: 0 <= i < |r.education| ==> r.education[i] == PublicEducationOf(data.education[i])
    ensures forall i :: 0 <= i < |r.certifications| ==>
      r.certifications[i] == PublicCredentialOf(data.certifications[i])
    ensures forall i :: 0 <= i < |r.achievements| ==> r.achievements[i] == PublicCredentialOf(data.achievements[i])
    ensures r.skills == PublicSkills(data.skills)
    ensures forall i :: 0 <= i < |r.skills| ==> SkillGroupShown(r.skills[i])
  {
    var fp, ex, ed := data.featuredProjects, data.experience, data.education;
    var ce, ac := data.certifications, data.achievements;
    PublicSections(
      Trim(data.about),
      seq(|fp|, i requires 0 <= i < |fp| => PublicProjectOf(fp[i])),
      seq(|ex|, i requires 0 <= i < |ex| => PublicExperienceOf(ex[i])),
      PublicSkills(data.skills),
      seq(|ed|, i requires 0 <= i < |ed| => PublicEducationOf(ed[i])),
      seq(|ce|, i requires 0 <= i < |ce| => PublicCredentialOf(ce[i])),
      seq(|ac|, i requires 0 <= i < |ac| => PublicCredentialOf(ac[i])))
  }

  /** The `contact` block: email and website prefer the profile's values over the contact section's. */
  function PublicContactOf(data: PortfolioData): (r: PublicContact)
    ensures Trim(data.profile.email) != "" ==> r.email == Trim(data.profile.email)
    ensures Trim(data.profile.email) == "" ==> r.email == Trim(data.contact.email)
    ensures Trim(data.profile.website) != "" ==> r.website == Trim(data.profile.website)
    ensures Trim(data.profile.website) == "" ==> r.website == Trim(data.contact.website)
    ensures r.phone == Trim(data.profile.phone) && r.github == Trim(data.profile.github)
    ensures r.linkedin == Trim(data.profile.linkedin)
    ensures r.callToActionTitle == Trim(data.contact.callToActionTitle)
    ensures r.callToActionText == Trim(data.contact.callToActionText)
    ensures r.links == PublicLinks(data.contact.links)
    ensures forall i :: 0 <= i < |r.links| ==> r.links[i].href != "" && r.links[i].labelText != ""
  {
    var p, c := data.profile, data.contact;
    PublicContact(
      Prefer(p.email, c.email), Trim(p.phone), Prefer(p.website, c.website),
      Trim(p.github), Trim(p.linkedin), Trim(c.callToActionTitle), Trim(c.callToActionText),
      PublicLinks(c.links))
  }

  /** `buildPortfolioPublicData`. */
  function BuildPortfolioPublicData(project: ProjectRow, sections: seq<SectionDTO>): (r: PortfolioPublicData)
    ensures r.version == "1.0"
    ensures r.templateKey == ToTemplateKey(project.themeKey) && r.templateKey in TEMPLATE_KEYS
    ensures r.meta.visibility == project.visibility
    ensures r.meta.publishedAt == project.publishedAt && r.meta.updatedAt == project.updatedAt
    ensures forall i :: 0 <= i < |r.visibleSections| ==> r.visibleSections[i] in PUBLIC_SECTION_KEYS
    ensures r.visibleSections == VisibleSections(sections)
    ensures r.contact == PublicContactOf(BuildPortfolioData(sections))
    ensures r.sections == PublicSectionsOf(BuildPortfolioData(sections))
    ensures var data := BuildPortfolioData(sections);
      r.owner == PublicOwner(Trim(data.profile.fullName), Trim(data.profile.headline), Trim(data.about), Trim(data.profile.location))
    ensures r.meta.title == Trim(project.title) && r.meta.slug == Trim(project.slug)
  {
    var data := BuildPortfolioData(sections);
    PortfolioPublicData(
      "1.0",
      ToTemplateKey(project.themeKey),
      PublicOwner(Trim(data.profile.fullName), Trim(data.profile.headline), Trim(data.about), Trim(data.profile.location)),
      PublicContactOf(data),
      PublicSectionsOf(data),
      VisibleSections(sections),
      PublicMeta(Trim(project.title), Trim(project.slug), project.visibility, project.publishedAt, project.updatedAt))
  }

  /**
   * The contact email falls back to the contact section's email exactly when
   * the profile email is blank; the contact email reaches the document as stored
   * by the projection, since the projection already trimmed it.
   */
  lemma EmailFallsBackToContact(project: ProjectRow, sections: seq<SectionDTO>)
    ensures var data, doc := BuildPortfolioData(sections), BuildPortfolioPublicData(project, sections);
      && (Trim(data.profile.email) != "" ==> doc.contact.email == Trim(data.profile.email))
      && (Trim(data.profile.email) == "" ==> doc.contact.email == data.contact.email)
      && (Trim(data.profile.website) == "" ==> doc.contact.website == data.contact.website)
  {
    var data := BuildPortfolioData(sections);
    TrimmedIsFixed(data.contact.email);
    TrimmedIsFixed(data.contact.website);
  }

  /** Every contact link in the document has a non-empty href and a non-empty label. */
  lemma PublicLinksNonBlank(project: ProjectRow, sections: seq<SectionDTO>)
    ensures var links := BuildPortfolioPublicData(project, sections).contact.links;
      forall i :: 0 <= i < |links| ==> links[i].href != "" && links[i].labelText != ""
  {
  }

  /** The entries of a `sections` block are never empty, and every kept skill group has a name or an item. */
  predicate NoBlankIn(s: PublicSections) {
    && (forall i, k :: 0 <= i < |s.featuredProjects| && 0 <= k < |s.featuredProjects[i].bullets| ==>
          s.featuredProjects[i].bullets[k] != "")
    && (forall i, k :: 0 <= i < |s.featuredProjects| && 0 <= k < |s.featuredProjects[i].tags| ==>
          s.featuredProjects[i].tags[k] != "")
    && (forall i, k :: 0 <= i < |s.experience| && 0 <= k < |s.experience[i].bullets| ==>
          s.experience[i].bullets[k] != "")
    && (forall i :: 0 <= i < |s.skills| ==> s.skills[i].name != "" || |s.skills[i].items| > 0)
    && (forall i, k :: 0 <= i < |s.skills| && 0 <= k < |s.skills[i].items| ==> s.skills[i].items[k] != "")
  }

  /** Building the `sections` block from any projection leaves no empty entry. */
  lemma PublicSectionsNoBlank(data: PortfolioData)
    ensures NoBlankIn(PublicSectionsOf(data))
  {
  }

  /**
   * No bullet, tag or skill item in the document is empty, and every kept
   * skill group has a name or an item.
   */
  lemma NoBlankEntries(project: ProjectRow, sections: seq<SectionDTO>)
    ensures NoBlankIn(BuildPortfolioPublicData(project, sections).sections)
  {
    PublicSectionsNoBlank(BuildPortfolioData(sections));
  }
}

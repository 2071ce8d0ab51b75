/**
 * The pure parts of the portfolio registry: slug normalisation, the slug
 * candidates the uniqueness probe walks through, the pro-template gate, the
 * default section layout and the payloads a new project is seeded with.
 */
module PortfolioCreator {
  import opened Wrappers
  import opened Text
  import opened Content
  import opened Helpers
  import opened Auth
  import Forms

  // ---------------------------------------------------------------- slugs

  /** The characters `[a-z0-9]` a slug keeps. */
  predicate IsSlugChar(c: char) {
    'a' <= c <= 'z' || '0' <= c <= '9'
  }

  /** Every character is a slug character or a dash. */
  predicate SlugAlphabet(s: string) {
    forall i :: 0 <= i < |s| ==> IsSlugChar(s[i]) || s[i] == '-'
  }

  /** No dash is followed by another dash. */
  predicate NoDoubleDash(s: string) {
    forall i :: 0 <= i < |s| - 1 ==> s[i] == '-' ==> s[i + 1] != '-'
  }

  /** A well-formed slug: `a-z`, `0-9` and single inner dashes only. */
  predicate IsSlug(s: string) {
    SlugAlphabet(s) && NoDoubleDash(s) && (|s| > 0 ==> s[0] != '-' && s[|s| - 1] != '-')
  }

  /** The leading characters one match of `[^a-z0-9]+` swallows, dropped. */
  function DropNonSlug(s: string): (r: string)
    ensures |r| <= |s|
    ensures |r| > 0 ==> IsSlugChar(r[0])
    ensures (|s| == 0 || IsSlugChar(s[0])) ==> r == s
  {
    if |s| == 0 || IsSlugChar(s[0]) then s else DropNonSlug(s[1..])
  }

  /** `.replace(/[^a-z0-9]+/g, "-")`: each maximal run of other characters becomes a single dash. */
  function CollapseRuns(s: string): (r: string)
    ensures |r| <= |s|
    ensures SlugAlphabet(r) && NoDoubleDash(r)
    ensures |s| > 0 && IsSlugChar(s[0]) ==> |r| > 0 && r[0] == s[0]
    decreases |s|
  {
    if |s| == 0 then ""
    else if IsSlugChar(s[0]) then [s[0]] + CollapseRuns(s[1..])
    else "-" + CollapseRuns(DropNonSlug(s[1..]))
  }

  /** `.replace(/(^-|-$)+/g, "")`: a dash at either end removed. */
  function StripEdgeDashes(s: string): (r: string)
    ensures SlugAlphabet(s) && NoDoubleDash(s) ==> IsSlug(r)
    ensures (|s| == 0 || (s[0] != '-' && s[|s| - 1] != '-')) ==> r == s
  {
    var a := if |s| > 0 && s[0] == '-' then s[1..] else s;
    assert SlugAlphabet(s) && NoDoubleDash(s) ==> SlugAlphabet(a) && NoDoubleDash(a) && (|a| > 0 ==> a[0] != '-');
    if |a| > 0 && a[|a| - 1] == '-' then a[..|a| - 1] else a
  }

  /** `slugify`: lower-case, trim, collapse other characters to dashes, strip edge dashes. */
  function Slugify(value: string): (r: string)
    ensures IsSlug(r)
  {
    StripEdgeDashes(CollapseRuns(Trim(Lower(value))))
  }

  /** A string already clean of other characters and double dashes comes through the collapse unchanged. */
  lemma {:induction false} CollapseKeepsClean(s: string)
    requires SlugAlphabet(s) && NoDoubleDash(s)
    ensures CollapseRuns(s) == s
    decreases |s|
  {
    if |s| > 0 {
      var rest := s[1..];
      assert SlugAlphabet(rest) && NoDoubleDash(rest);
      CollapseKeepsClean(rest);
      if !IsSlugChar(s[0]) {
        assert |rest| > 0 ==> rest[0] != '-';
        assert DropNonSlug(rest) == rest;
      }
    }
  }

  /** A slug is its own slug. */
  lemma SlugIsFixed(s: string)
    requires IsSlug(s)
    ensures Slugify(s) == s
  {
    assert Lower(s) == s;
    assert IsTrimmed(s);
    TrimmedIsFixed(s);
    CollapseKeepsClean(s);
  }

  /** `slugify` is idempotent. */
  lemma SlugifyIdempotent(value: string)
    ensures Slugify(Slugify(value)) == Slugify(value)
  {
    SlugIsFixed(Slugify(value));
  }

  /** `baseSlug || "portfolio"`: the first slug the probe tries. */
  function RawSlug(baseSlug: string): (r: string)
    ensures r != ""
    ensures baseSlug != "" ==> r == baseSlug
    ensures baseSlug == "" ==> r == "portfolio"
  {
    if baseSlug != "" then baseSlug else "portfolio"
  }

  /** The k-th slug the probe tries: `raw`, then `raw-2`, `raw-3`, and so on. */
  function Candidate(raw: string, k: nat): (r: string)
    requires k >= 1
    ensures |r| >= |raw| && r[..|raw|] == raw
  {
    if k == 1 then raw else raw + "-" + NatToString(k)
  }

  /** The probe never tries the same slug twice. */
  lemma CandidatesDistinct(raw: string, j: nat, k: nat)
    requires 1 <= j < k
    ensures Candidate(raw, j) != Candidate(raw, k)
  {
    if j > 1 {
      var cj, ck := Candidate(raw, j), Candidate(raw, k);
      if cj == ck {
        assert cj[|raw| + 1..] == NatToString(j);
        assert ck[|raw| + 1..] == NatToString(k);
        NatToStringInjective(j, k);
      }
    }
  }

  // ------------------------------------------------------- template access

  /** `ensureTemplateAccess`: PAYMENT_REQUIRED exactly for a pro template and an unpaid caller. */
  function EnsureTemplateAccess(templateKey: string, isPaid: bool): (r: Option<Error>)
    ensures r.Some? <==> (templateKey == "minimal" || templateKey == "story") && !isPaid
    ensures r.Some? ==> r.value == PaymentRequired
  {
    if IsProTemplate(templateKey) && !isPaid then Some(PaymentRequired) else None
  }

  // ------------------------------------------------------ default layout

  datatype DefaultSection = DefaultSection(key: SectionKey, order: int)

  /** `DEFAULT_SECTIONS`. */
  const DEFAULT_SECTIONS: seq<DefaultSection> := [
    DefaultSection(PROFILE, 1), DefaultSection(ABOUT, 2), DefaultSection(FEATURED_PROJECTS, 3),
    DefaultSection(EXPERIENCE, 4), DefaultSection(SKILLS, 5), DefaultSection(EDUCATION, 6),
    DefaultSection(CERTIFICATIONS, 7), DefaultSection(ACHIEVEMENTS, 8), DefaultSection(CONTACT, 9)]

  /** `DEFAULT_SECTIONS` lists the nine keys in order, numbered 1 to 9. */
  lemma DefaultSectionsLayout()
    ensures |DEFAULT_SECTIONS| == |SECTION_KEYS| == 9
    ensures forall i :: 0 <= i < 9 ==> DEFAULT_SECTIONS[i].key == SECTION_KEYS[i] && DEFAULT_SECTIONS[i].order == i + 1
  {
  }

  /** `defaultProfile()`. */
  const DEFAULT_PROFILE_DATA: ItemData := EMPTY_DATA.(
    fullName := Some(""), headline := Some(""), location := Some(""), email := Some(""),
    phone := Some(""), website := Some(""), github := Some(""), linkedin := Some(""))

  /** `defaultAbout()`. */
  const DEFAULT_ABOUT_DATA: ItemData := EMPTY_DATA.(text := Some(""))

  /** `defaultSkills()`: the groups Backend, Frontend and Tools, each empty. */
  const DEFAULT_SKILLS_DATA: ItemData := EMPTY_DATA.(groups := Some(DEFAULT_SKILL_GROUPS))

  /** `defaultContact()`. */
  const DEFAULT_CONTACT_DATA: ItemData := EMPTY_DATA.(
    callToActionTitle := Some(""), callToActionText := Some(""), email := Some(""),
    website := Some(""), links := Some([]))

  /** The payload a new project seeds under a key, if it seeds one. */
  function SeedPayload(key: string): (r: Option<ItemData>)
    ensures r.Some? <==> key == PROFILE || key == ABOUT || key == SKILLS || key == CONTACT
  {
    if key == PROFILE then Some(DEFAULT_PROFILE_DATA)
    else if key == ABOUT then Some(DEFAULT_ABOUT_DATA)
    else if key == SKILLS then Some(DEFAULT_SKILLS_DATA)
    else if key == CONTACT then Some(DEFAULT_CONTACT_DATA)
    else None
  }

  /** The server seeds an item exactly in the sections the editor treats as single-item sections. */
  lemma SeedsMatchSingleSections(key: SectionKey)
    ensures SeedPayload(key).Some? <==> Forms.IsSingleSection(key)
  {
  }

  /** The nine rows `DEFAULT_SECTIONS.map(...)` inserts for a new project. */
  function SeedSections(projectId: Id, sectionIds: seq<Id>, now: Timestamp): (r: seq<SectionRow>)
    requires |sectionIds| == |DEFAULT_SECTIONS|
    ensures |r| == 9
    ensures forall i :: 0 <= i < 9 ==>
      r[i].id == sectionIds[i] && r[i].projectId == projectId && r[i].key == SECTION_KEYS[i]
      && r[i].order == i + 1 && r[i].isEnabled && r[i].createdAt == now && r[i].updatedAt == now
  {
    DefaultSectionsLayout();
    seq(9, i requires 0 <= i < 9 =>
      var d := DEFAULT_SECTIONS[i];
      SectionRow(sectionIds[i], projectId, d.key, SectionLabel(d.key), d.order, true, now, now))
  }

  /** `sections.find((section) => section.key === key)`. */
  function FindSection(sections: seq<SectionRow>, key: string): (r: Option<SectionRow>)
    ensures r.Some? ==> r.value in sections && r.value.key == key
    ensures r.None? ==> forall i :: 0 <= i < |sections| ==> sections[i].key != key
  {
    if |sections| == 0 then None
    else if sections[0].key == key then Some(sections[0])
    else FindSection(sections[1..], key)
  }

  /** One `defaultItems.push(...)`: the section id and payload, when the section is there. */
  function SeedFor(sections: seq<SectionRow>, key: string): (r: seq<(Id, ItemData)>)
    requires SeedPayload(key).Some?
  {
    match FindSection(sections, key)
    case Some(s) => [(s.id, SeedPayload(key).value)]
    case None => []
  }

  /** `defaultItemRows`: the seed items for profile, about, skills and contact, each at order 1. */
  function SeedItems(sections: seq<SectionRow>, itemIds: seq<Id>, now: Timestamp): (r: seq<ItemRow>)
    requires |itemIds| == 4
    ensures |r| <= 4
    ensures forall j :: 0 <= j < |r| ==>
      r[j].id == itemIds[j] && r[j].order == 1 && r[j].createdAt == now && r[j].updatedAt == now
  {
    var pending := SeedFor(sections, PROFILE) + SeedFor(sections, ABOUT) + SeedFor(sections, SKILLS)
      + SeedFor(sections, CONTACT);
    seq(|pending|, j requires 0 <= j < |pending| => ItemRow(itemIds[j], pending[j].0, 1, pending[j].1, now, now))
  }

  /** The items in `items` whose section is `sectionId`, in order (`itemsBySection.get(id) ?? []`). */
  function ItemsOf(items: seq<ItemRow>, sectionId: Id): (r: seq<ItemRow>)
    ensures |r| <= |items|
    ensures forall j :: 0 <= j < |r| ==> r[j] in items && r[j].sectionId == sectionId
    ensures (forall j :: 0 <= j < |items| ==> items[j].sectionId != sectionId) ==> r == []
  {
    if |items| == 0 then []
    else if items[0].sectionId == sectionId then [items[0]] + ItemsOf(items[1..], sectionId)
    else ItemsOf(items[1..], sectionId)
  }

  /** A section row together with its items: the shape `createProject` and `getProject` return. */
  function SectionWithItems(s: SectionRow, items: seq<ItemRow>): SectionDTO {
    SectionDTO(s.id, s.projectId, s.key, s.labelText, s.order, s.isEnabled, ItemsOf(items, s.id))
  }

  function SectionsWithItems(sections: seq<SectionRow>, items: seq<ItemRow>): (r: seq<SectionDTO>)
    ensures |r| == |sections|
    ensures forall i :: 0 <= i < |r| ==> r[i] == SectionWithItems(sections[i], items)
  {
    seq(|sections|, i requires 0 <= i < |sections| => SectionWithItems(sections[i], items))
  }

  /** Pairwise different ids. */
  predicate Distinct(ids: seq<Id>) {
    forall i, j :: 0 <= i < j < |ids| ==> ids[i] != ids[j]
  }

  /** `find` returns the first row with the key. */
  lemma {:induction false} FindFirst(sections: seq<SectionRow>, key: string, k: nat)
    requires k < |sections| && sections[k].key == key
    requires forall i :: 0 <= i < k ==> sections[i].key != key
    ensures FindSection(sections, key) == Some(sections[k])
  {
    if k > 0 {
      FindFirst(sections[1..], key, k - 1);
    }
  }

  /** The nine section keys are pairwise different. */
  lemma SectionKeysDistinct()
    ensures forall i, j :: 0 <= i < j < 9 ==> SECTION_KEYS[i] != SECTION_KEYS[j]
  {
  }

  /** The seeded section and item ids, as `SeedItems` lays them out. */
  lemma SeedItemsLayout(projectId: Id, sectionIds: seq<Id>, itemIds: seq<Id>, now: Timestamp)
    requires |sectionIds| == 9 && |itemIds| == 4
    ensures var items := SeedItems(SeedSections(projectId, sectionIds, now), itemIds, now);
      |items| == 4
      && items[0].sectionId == sectionIds[0] && items[0].data == DEFAULT_PROFILE_DATA
      && items[1].sectionId == sectionIds[1] && items[1].data == DEFAULT_ABOUT_DATA
      && items[2].sectionId == sectionIds[4] && items[2].data == DEFAULT_SKILLS_DATA
      && items[3].sectionId == sectionIds[8] && items[3].data == DEFAULT_CONTACT_DATA
  {
    var secs := SeedSections(projectId, sectionIds, now);
    SectionKeysDistinct();
    FindFirst(secs, PROFILE, 0);
    FindFirst(secs, ABOUT, 1);
    FindFirst(secs, SKILLS, 4);
    FindFirst(secs, CONTACT, 8);
  }

  /** The seed payload of the section at each position of the default layout. */
  lemma SeedPayloadAt(i: nat)
    requires i < 9
    ensures SeedPayload(SECTION_KEYS[i]) ==
      if i == 0 then Some(DEFAULT_PROFILE_DATA) else if i == 1 then Some(DEFAULT_ABOUT_DATA)
      else if i == 4 then Some(DEFAULT_SKILLS_DATA) else if i == 8 then Some(DEFAULT_CONTACT_DATA)
      else None
  {
    if i == 0 {} else if i == 1 {} else if i == 2 {} else if i == 3 {} else if i == 4 {}
    else if i == 5 {} else if i == 6 {} else if i == 7 {} else {}
  }

  /** When exactly one item belongs to the section, that item is all the section gets. */
  lemma {:induction false} ItemsOfSingle(items: seq<ItemRow>, sid: Id, k: nat)
    requires k < |items| && items[k].sectionId == sid
    requires forall j :: 0 <= j < |items| && j != k ==> items[j].sectionId != sid
    ensures ItemsOf(items, sid) == [items[k]]
  {
    var rest := items[1..];
    if k == 0 {
      assert forall j :: 0 <= j < |rest| ==> rest[j].sectionId != sid by {
        forall j | 0 <= j < |rest| ensures rest[j].sectionId != sid {
          assert rest[j] == items[j + 1];
        }
      }
    } else {
      forall j | 0 <= j < |rest| && j != k - 1 ensures rest[j].sectionId != sid {
        assert rest[j] == items[j + 1];
      }
      ItemsOfSingle(rest, sid, k - 1);
    }
  }

  /** Four order-1 items for the sections at positions 0, 1, 4 and 8, carrying their seed payloads. */
  predicate SeedItemsFor(sectionIds: seq<Id>, items: seq<ItemRow>)
    requires |sectionIds| == 9
  {
    |items| == 4
    && (forall j :: 0 <= j < 4 ==> items[j].order == 1)
    && items[0].sectionId == sectionIds[0] && items[0].data == DEFAULT_PROFILE_DATA
    && items[1].sectionId == sectionIds[1] && items[1].data == DEFAULT_ABOUT_DATA
    && items[2].sectionId == sectionIds[4] && items[2].data == DEFAULT_SKILLS_DATA
    && items[3].sectionId == sectionIds[8] && items[3].data == DEFAULT_CONTACT_DATA
  }

  /** With such items, each section gets its one seed item if its key seeds one, and nothing otherwise. */
  lemma OnePerSeededSection(sectionIds: seq<Id>, items: seq<ItemRow>, i: nat)
    requires |sectionIds| == 9 && Distinct(sectionIds) && SeedItemsFor(sectionIds, items) && i < 9
    ensures var own := ItemsOf(items, sectionIds[i]);
      |own| == (if SeedPayload(SECTION_KEYS[i]).Some? then 1 else 0)
      && forall j :: 0 <= j < |own| ==> own[j].order == 1 && Some(own[j].data) == SeedPayload(SECTION_KEYS[i])
  {
    SeedPayloadAt(i);
    var sid := sectionIds[i];
    assert forall j :: 0 <= j < 9 && j != i ==> sectionIds[j] != sid;
    if i == 0 {
      ItemsOfSingle(items, sid, 0);
    } else if i == 1 {
      ItemsOfSingle(items, sid, 1);
    } else if i == 4 {
      ItemsOfSingle(items, sid, 2);
    } else if i == 8 {
      ItemsOfSingle(items, sid, 3);
    } else {
      assert forall j :: 0 <= j < |items| ==> items[j].sectionId != sid;
    }
  }

  /**
   * A new project's seed: one order-1 item in each of profile, about, skills
   * and contact, and no item in any other section.
   */
  lemma SeedOnePerSingleSection(projectId: Id, sectionIds: seq<Id>, itemIds: seq<Id>, now: Timestamp, i: nat)
    requires |sectionIds| == 9 && |itemIds| == 4 && Distinct(sectionIds) && i < 9
    ensures var secs := SeedSections(projectId, sectionIds, now);
      var own := ItemsOf(SeedItems(secs, itemIds, now), secs[i].id);
      |own| == (if SeedPayload(secs[i].key).Some? then 1 else 0)
      && forall j :: 0 <= j < |own| ==> own[j].order == 1 && Some(own[j].data) == SeedPayload(secs[i].key)
  {
    var secs := SeedSections(projectId, sectionIds, now);
    SeedItemsLayout(projectId, sectionIds, itemIds, now);
    OnePerSeededSection(sectionIds, SeedItems(secs, itemIds, now), i);
  }

  /** `getSectionItems` reads the first section with the key. */
  lemma {:induction false} GetSectionItemsAt(sections: seq<SectionDTO>, key: string, k: nat)
    requires k < |sections| && sections[k].key == key
    requires forall i :: 0 <= i < k ==> sections[i].key != key
    ensures GetSectionItems(sections, key) == sections[k].items
  {
    if k > 0 {
      GetSectionItemsAt(sections[1..], key, k - 1);
    }
  }

  /** Nine enabled sections in the default order; the four seeded ones hold their seed payload, the rest nothing. */
  predicate SeededLayout(dtos: seq<SectionDTO>) {
    |dtos| == 9
    && (forall i :: 0 <= i < 9 ==> dtos[i].isEnabled && dtos[i].key == SECTION_KEYS[i])
    && |dtos[0].items| == 1 && dtos[0].items[0].data == DEFAULT_PROFILE_DATA
    && |dtos[1].items| == 1 && dtos[1].items[0].data == DEFAULT_ABOUT_DATA
    && |dtos[4].items| == 1 && dtos[4].items[0].data == DEFAULT_SKILLS_DATA
    && |dtos[8].items| == 1 && dtos[8].items[0].data == DEFAULT_CONTACT_DATA
    && dtos[2].items == [] && dtos[3].items == [] && dtos[5].items == []
    && dtos[6].items == [] && dtos[7].items == []
  }

  /** The nine sections of a new project, with their items, have the seeded layout. */
  lemma SeededSectionsShape(projectId: Id, sectionIds: seq<Id>, itemIds: seq<Id>, now: Timestamp)
    requires |sectionIds| == 9 && |itemIds| == 4 && Distinct(sectionIds)
    ensures var secs := SeedSections(projectId, sectionIds, now);
      SeededLayout(SectionsWithItems(secs, SeedItems(secs, itemIds, now)))
  {
    var secs := SeedSections(projectId, sectionIds, now);
    var items := SeedItems(secs, itemIds, now);
    SeedItemsLayout(projectId, sectionIds, itemIds, now);
    var dtos := SectionsWithItems(secs, items);
    forall i | 0 <= i < 9
      ensures dtos[i].items == ItemsOf(items, sectionIds[i])
      ensures |dtos[i].items| == (if SeedPayload(SECTION_KEYS[i]).Some? then 1 else 0)
      ensures |dtos[i].items| == 1 ==> Some(dtos[i].items[0].data) == SeedPayload(SECTION_KEYS[i])
    {
      OnePerSeededSection(sectionIds, items, i);
    }
    SeedPayloadAt(0); SeedPayloadAt(1); SeedPayloadAt(2); SeedPayloadAt(3); SeedPayloadAt(4);
    SeedPayloadAt(5); SeedPayloadAt(6); SeedPayloadAt(7); SeedPayloadAt(8);
  }

  /** The blocks of a portfolio built from the seeded layout. */
  lemma SeededLayoutBlocks(dtos: seq<SectionDTO>)
    requires SeededLayout(dtos)
    ensures var enabled := EnabledSections(dtos);
      FirstData(GetSectionItems(enabled, PROFILE)) == DEFAULT_PROFILE_DATA
      && FirstData(GetSectionItems(enabled, ABOUT)) == DEFAULT_ABOUT_DATA
      && FirstData(GetSectionItems(enabled, SKILLS)) == DEFAULT_SKILLS_DATA
      && FirstData(GetSectionItems(enabled, CONTACT)) == DEFAULT_CONTACT_DATA
      && GetSectionItems(enabled, FEATURED_PROJECTS) == []
      && GetSectionItems(enabled, EXPERIENCE) == []
      && GetSectionItems(enabled, EDUCATION) == []
      && GetSectionItems(enabled, CERTIFICATIONS) == []
      && GetSectionItems(enabled, ACHIEVEMENTS) == []
  {
    SeededKeyItems(dtos, 0);
    SeededKeyItems(dtos, 1);
    SeededKeyItems(dtos, 2);
    SeededKeyItems(dtos, 3);
    SeededKeyItems(dtos, 4);
    SeededKeyItems(dtos, 5);
    SeededKeyItems(dtos, 6);
    SeededKeyItems(dtos, 7);
    SeededKeyItems(dtos, 8);
  }

  /** In the seeded layout, each key reads the items of its own section. */
  lemma SeededKeyItems(dtos: seq<SectionDTO>, k: nat)
    requires SeededLayout(dtos) && k < 9
    ensures GetSectionItems(EnabledSections(dtos), SECTION_KEYS[k]) == dtos[k].items
  {
    AllEnabledKept(dtos);
    SectionKeysDistinct();
    var key := SECTION_KEYS[k];
    forall i | 0 <= i < k ensures dtos[i].key != key {
      assert dtos[i].key == SECTION_KEYS[i];
    }
    GetSectionItemsAt(dtos, key, k);
  }

  /** Sections with the seeded layout render as the empty portfolio. */
  lemma SeededLayoutRendersEmpty(dtos: seq<SectionDTO>)
    requires SeededLayout(dtos)
    ensures BuildPortfolioData(dtos) == CreateEmptyPortfolioData()
  {
    SeededLayoutBlocks(dtos);
    SeededPayloadsRenderEmpty();
  }

  /** A freshly created project renders as `createEmptyPortfolioData()`. */
  lemma NewProjectRendersEmpty(projectId: Id, sectionIds: seq<Id>, itemIds: seq<Id>, now: Timestamp)
    requires |sectionIds| == 9 && |itemIds| == 4 && Distinct(sectionIds)
    ensures var secs := SeedSections(projectId, sectionIds, now);
      BuildPortfolioData(SectionsWithItems(secs, SeedItems(secs, itemIds, now))) == CreateEmptyPortfolioData()
  {
    SeededSectionsShape(projectId, sectionIds, itemIds, now);
    var secs := SeedSections(projectId, sectionIds, now);
    SeededLayoutRendersEmpty(SectionsWithItems(secs, SeedItems(secs, itemIds, now)));
  }

  /** A list of enabled sections is its own enabled part. */
  lemma {:induction false} AllEnabledKept(sections: seq<SectionDTO>)
    requires forall i :: 0 <= i < |sections| ==> sections[i].isEnabled
    ensures EnabledSections(sections) == sections
  {
    if |sections| > 0 {
      AllEnabledKept(sections[1..]);
      assert [sections[0]] + sections[1..] == sections;
    }
  }

  /** Each seeded payload reads back as the empty value of its block. */
  lemma SeededPayloadsRenderEmpty()
    ensures ProfileOf(DEFAULT_PROFILE_DATA) == EMPTY_PROFILE
    ensures NormalizeText(DEFAULT_ABOUT_DATA.text) == ""
    ensures SkillsOf(DEFAULT_SKILLS_DATA) == DEFAULT_SKILL_GROUPS
    ensures ContactOf(DEFAULT_CONTACT_DATA) == EMPTY_CONTACT
  {
    DefaultSkillsKept();
    assert SkillsOf(DEFAULT_SKILLS_DATA) == SkillsOf(EMPTY_DATA);
    assert Trim("") == "";
    assert NormalizeLinks([]) == [];
  }
}

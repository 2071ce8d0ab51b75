/**
 * The server side of the portfolio creator: the project, section and item
 * tables, and the action handlers that read and write them. The tables are
 * maps from id to row; the caller, the clock and the fresh ids the handlers
 * would draw from `randomUUID` are parameters.
 */
module Registry {
  import opened Wrappers
  import opened Text
  import opened Content
  import opened Helpers
  import opened Auth
  import opened PortfolioCreator

  // ------------------------------------------------------------ slug probe

  /** Some project other than `exclude` already holds `slug`. */
  predicate SlugTaken(projects: map<Id, ProjectRow>, slug: string, exclude: Option<Id>) {
    exists id | id in projects :: projects[id].slug == slug && exclude != Some(id)
  }

  /** The slugs held by the projects. */
  ghost function Slugs(projects: map<Id, ProjectRow>): set<string> {
    set id | id in projects :: projects[id].slug
  }

  /** The candidates the probe has tried before the k-th. */
  ghost function CandidatesBefore(raw: string, k: nat): set<string>
    requires k >= 1
  {
    if k == 1 then {} else CandidatesBefore(raw, k - 1) + {Candidate(raw, k - 1)}
  }

  /** The j-th candidate is among those tried before any later one. */
  lemma {:induction false} CandidateTriedBefore(raw: string, j: nat, k: nat)
    requires 1 <= j < k
    ensures Candidate(raw, j) in CandidatesBefore(raw, k)
  {
    if j < k - 1 {
      CandidateTriedBefore(raw, j, k - 1);
    }
  }

  /** The k-th candidate has not been tried before. */
  lemma {:induction false} CandidateNotTriedBefore(raw: string, n: nat, k: nat)
    requires 1 <= n <= k
    ensures Candidate(raw, k) !in CandidatesBefore(raw, n)
  {
    if n > 1 {
      CandidateNotTriedBefore(raw, n - 1, k);
      CandidatesDistinct(raw, n - 1, k);
    }
  }

  /** `slug` is a candidate for `baseSlug`, and every candidate before it is taken. */
  ghost predicate FirstFreeCandidate(projects: map<Id, ProjectRow>, baseSlug: string, exclude: Option<Id>, slug: string) {
    exists k: nat :: 1 <= k && slug == Candidate(RawSlug(baseSlug), k)
      && forall j: nat :: 1 <= j < k ==> SlugTaken(projects, Candidate(RawSlug(baseSlug), j), exclude)
  }

  /**
   * `ensureUniqueSlug`: tries `raw`, `raw-2`, `raw-3`, ... (where `raw` is the
   * base, or "portfolio" when the base is empty) and returns the first one no
   * project other than `projectId` holds.
   */
  method EnsureUniqueSlug(projects: map<Id, ProjectRow>, baseSlug: string, projectId: Option<Id>)
    returns (slug: string)
    ensures !SlugTaken(projects, slug, projectId)
    ensures FirstFreeCandidate(projects, baseSlug, projectId, slug)
  {
    var raw := RawSlug(baseSlug);
    slug := raw;
    var suffix: nat := 2;
    ghost var tried: set<string> := {};
    while SlugTaken(projects, slug, projectId)
      invariant suffix >= 2 && slug == Candidate(raw, suffix - 1)
      invariant tried == CandidatesBefore(raw, suffix - 1)
      invariant forall t :: t in tried ==> SlugTaken(projects, t, projectId)
      invariant tried <= Slugs(projects)
      decreases |Slugs(projects) - tried|
    {
      ProbeStep(projects, raw, suffix - 1, projectId);
      tried := tried + {slug};
      slug := raw + "-" + NatToString(suffix);
      suffix := suffix + 1;
    }
    ghost var k := suffix - 1;
    forall j: nat | 1 <= j < k ensures SlugTaken(projects, Candidate(raw, j), projectId) {
      CandidateTriedBefore(raw, j, k);
    }
  }

  /** One more taken candidate: the tried set grows by a slug some project holds, so fewer untried slugs remain. */
  lemma ProbeStep(projects: map<Id, ProjectRow>, raw: string, k: nat, exclude: Option<Id>)
    requires k >= 1 && SlugTaken(projects, Candidate(raw, k), exclude)
    requires CandidatesBefore(raw, k) <= Slugs(projects)
    ensures CandidatesBefore(raw, k + 1) <= Slugs(projects)
    ensures |Slugs(projects) - CandidatesBefore(raw, k + 1)| < |Slugs(projects) - CandidatesBefore(raw, k)|
  {
    var slug := Candidate(raw, k);
    var tried := CandidatesBefore(raw, k);
    CandidateNotTriedBefore(raw, k, k);
    var id :| id in projects && projects[id].slug == slug && exclude != Some(id);
    assert slug in Slugs(projects);
    assert Slugs(projects) - (tried + {slug}) == (Slugs(projects) - tried) - {slug};
  }

  /** Every candidate built from a slug is itself a slug. */
  lemma CandidateIsSlug(raw: string, k: nat)
    requires k >= 1 && raw != "" && IsSlug(raw)
    ensures IsSlug(Candidate(raw, k))
  {
    if k > 1 {
      var digits := NatToString(k);
      var c := Candidate(raw, k);
      assert c == raw + "-" + digits;
      forall i | 0 <= i < |c| ensures IsSlugChar(c[i]) || c[i] == '-' {
        if i < |raw| { assert c[i] == raw[i]; }
        else if i > |raw| { assert c[i] == digits[i - |raw| - 1]; }
      }
      assert c[|raw| - 1] == raw[|raw| - 1];
      forall i | 0 <= i < |c| - 1 && c[i] == '-' ensures c[i + 1] != '-' {
        if i < |raw| - 1 { assert c[i] == raw[i] && c[i + 1] == raw[i + 1]; }
        else if i >= |raw| { assert c[i + 1] == digits[i - |raw|]; }
      }
      assert c[|c| - 1] == digits[|digits| - 1];
    }
  }

  /** The probe for a slug made by `slugify` settles on a slug. */
  lemma ProbedSlugIsSlug(projects: map<Id, ProjectRow>, baseSlug: string, exclude: Option<Id>, slug: string)
    requires IsSlug(baseSlug) && FirstFreeCandidate(projects, baseSlug, exclude, slug)
    ensures IsSlug(slug)
  {
    var k: nat :| 1 <= k && slug == Candidate(RawSlug(baseSlug), k);
    CandidateIsSlug(RawSlug(baseSlug), k);
  }

  // ------------------------------------------------------------ reordering

  /** The position of the last occurrence of `x` in `ids`. */
  function LastIndex(ids: seq<Id>, x: Id): (r: nat)
    requires x in ids
    ensures r < |ids| && ids[r] == x
    ensures forall j :: r < j < |ids| ==> ids[j] != x
  {
    if ids[|ids| - 1] == x then |ids| - 1 else LastIndex(ids[..|ids| - 1], x)
  }

  /** Without repeats, the last occurrence of an id is its position. */
  lemma LastIndexOfDistinct(ids: seq<Id>, i: nat)
    requires Distinct(ids) && i < |ids|
    ensures LastIndex(ids, ids[i]) == i
  {
  }

  /**
   * What the reorder loop leaves behind: every row whose id is listed gets
   * order (position of its last occurrence) + 1 through `setOrder`; every
   * other row is kept.
   */
  function Reordered<T>(rows: map<Id, T>, ids: seq<Id>, setOrder: (T, int) -> T): (r: map<Id, T>)
    ensures r.Keys == rows.Keys
  {
    map id | id in rows :: if id in ids then setOrder(rows[id], LastIndex(ids, id) + 1) else rows[id]
  }

  /**
   * The `for (const [index, id] of ids.entries())` loop of `reorderSections`
   * and `reorderItems`: row `ids[index]` is given order `index + 1`; later
   * writes win.
   */
  method ApplyOrder<T>(rows: map<Id, T>, ids: seq<Id>, setOrder: (T, int) -> T) returns (out: map<Id, T>)
    ensures out == Reordered(rows, ids, setOrder)
  {
    out := rows;
    var i := 0;
    while i < |ids|
      invariant 0 <= i <= |ids|
      invariant out == Reordered(rows, ids[..i], setOrder)
    {
      var id := ids[i];
      if id in out {
        out := out[id := setOrder(rows[id], i + 1)];
      }
      ghost var done := ids[..i + 1];
      assert done[..i] == ids[..i];
      forall x | x in rows
        ensures out[x] == Reordered(rows, done, setOrder)[x]
      {
        if x == id {
          assert LastIndex(done, x) == i;
        } else if x in ids[..i] {
          assert LastIndex(done, x) == LastIndex(ids[..i], x);
        }
      }
      i := i + 1;
    }
    assert ids[..i] == ids;
  }

  /** After a reorder, a listed row carries the position of its last listing plus one; an unlisted row is unchanged. */
  lemma ReorderedRow<T>(rows: map<Id, T>, ids: seq<Id>, setOrder: (T, int) -> T, id: Id)
    requires id in rows
    ensures id in ids ==> exists i :: (0 <= i < |ids| && ids[i] == id
      && (forall j :: i < j < |ids| ==> ids[j] != id)
      && Reordered(rows, ids, setOrder)[id] == setOrder(rows[id], i + 1))
    ensures id !in ids ==> Reordered(rows, ids, setOrder)[id] == rows[id]
  {
    if id in ids {
      var i := LastIndex(ids, id);
      assert Reordered(rows, ids, setOrder)[id] == setOrder(rows[id], i + 1);
    }
  }

  // ------------------------------------------------------------ the tables

  /** One entry of the activity feed `pushDashboardActivity` reports: the event name and the entity. */
  datatype Activity = Activity(event: string, entityId: Option<Id>)

  /** Each row is stored under its own id. */
  predicate ProjectKeysMatch(projects: map<Id, ProjectRow>) {
    forall id | id in projects :: projects[id].id == id
  }

  predicate SectionKeysMatch(sections: map<Id, SectionRow>) {
    forall id | id in sections :: sections[id].id == id
  }

  predicate ItemKeysMatch(items: map<Id, ItemRow>) {
    forall id | id in items :: items[id].id == id
  }

  /** No two projects share a slug. */
  predicate SlugsUnique(projects: map<Id, ProjectRow>) {
    forall a, b | a in projects && b in projects :: projects[a].slug == projects[b].slug ==> a == b
  }

  /** `publishedAt` is set exactly when the project is published. */
  predicate PublishedAtPaired(projects: map<Id, ProjectRow>) {
    forall id | id in projects :: projects[id].publishedAt.Some? <==> projects[id].isPublished
  }

  /** Every section belongs to a stored project. */
  predicate SectionsHaveProject(projects: map<Id, ProjectRow>, sections: map<Id, SectionRow>) {
    forall id | id in sections :: sections[id].projectId in projects
  }

  /** Every item belongs to a stored section. */
  predicate ItemsHaveSection(sections: map<Id, SectionRow>, items: map<Id, ItemRow>) {
    forall id | id in items :: items[id].sectionId in sections
  }

  /** What the handlers keep true of the three tables. */
  predicate TablesValid(projects: map<Id, ProjectRow>, sections: map<Id, SectionRow>, items: map<Id, ItemRow>) {
    ProjectKeysMatch(projects) && SectionKeysMatch(sections) && ItemKeysMatch(items)
    && SlugsUnique(projects) && PublishedAtPaired(projects)
    && SectionsHaveProject(projects, sections) && ItemsHaveSection(sections, items)
  }

  // ------------------------------------------------------------ ownership

  /** `getOwnedProject`: the project with that id and owner, else NOT_FOUND. */
  function OwnedProject(projects: map<Id, ProjectRow>, projectId: Id, userId: Id): (r: Result<ProjectRow, Error>)
    ensures r.Ok? <==> projectId in projects && projects[projectId].userId == userId
    ensures r.Ok? ==> r.value == projects[projectId]
    ensures r.Err? ==> r.error == NotFound
  {
    if projectId in projects && projects[projectId].userId == userId then Ok(projects[projectId]) else Err(NotFound)
  }

  /** `getOwnedProjectWithTemplateAccess`: an owned project whose template the caller may use. */
  function AccessibleProject(projects: map<Id, ProjectRow>, projectId: Id, user: User): (r: Result<ProjectRow, Error>)
    ensures r.Ok? ==> (projectId in projects && r.value == projects[projectId]
      && r.value.userId == user.id && !(IsProTemplate(r.value.themeKey) && !user.isPaid))
    ensures r == Err(NotFound) <==> !(projectId in projects && projects[projectId].userId == user.id)
    ensures r == Err(PaymentRequired) <==> (projectId in projects && projects[projectId].userId == user.id
      && IsProTemplate(projects[projectId].themeKey) && !user.isPaid)
  {
    match OwnedProject(projects, projectId, user.id)
    case Err(e) => Err(e)
    case Ok(p) =>
      match EnsureTemplateAccess(p.themeKey, user.isPaid)
      case Some(e) => Err(e)
      case None => Ok(p)
  }

  /** `getOwnedSection`: the section, after its project passes the ownership and template gate. */
  function OwnedSection(projects: map<Id, ProjectRow>, sections: map<Id, SectionRow>, sectionId: Id, user: User)
    : (r: Result<SectionRow, Error>)
    ensures sectionId !in sections ==> r == Err(NotFound)
    ensures sectionId in sections ==> r.Err? == AccessibleProject(projects, sections[sectionId].projectId, user).Err?
    ensures sectionId in sections && r.Err? ==> r.error == AccessibleProject(projects, sections[sectionId].projectId, user).error
    ensures r.Ok? ==> sectionId in sections && r.value == sections[sectionId]
  {
    if sectionId !in sections then Err(NotFound)
    else
      match AccessibleProject(projects, sections[sectionId].projectId, user)
      case Err(e) => Err(e)
      case Ok(_) => Ok(sections[sectionId])
  }

  /** `getOwnedItem`: the item and its section, after the section's project passes the gate. */
  function OwnedItem(projects: map<Id, ProjectRow>, sections: map<Id, SectionRow>, items: map<Id, ItemRow>,
                     itemId: Id, user: User): (r: Result<(ItemRow, SectionRow), Error>)
    ensures itemId !in items ==> r == Err(NotFound)
    ensures itemId in items ==> r.Err? == OwnedSection(projects, sections, items[itemId].sectionId, user).Err?
    ensures itemId in items && r.Err? ==> r.error == OwnedSection(projects, sections, items[itemId].sectionId, user).error
    ensures r.Ok? ==> itemId in items && r.value.0 == items[itemId] && r.value.1 == sections[items[itemId].sectionId]
  {
    if itemId !in items then Err(NotFound)
    else
      match OwnedSection(projects, sections, items[itemId].sectionId, user)
      case Err(e) => Err(e)
      case Ok(s) => Ok((items[itemId], s))
  }

  /** An item lookup that succeeds has walked up to a project the caller owns and may edit. */
  lemma ItemLookupWalksUp(projects: map<Id, ProjectRow>, sections: map<Id, SectionRow>, items: map<Id, ItemRow>,
                          itemId: Id, user: User)
    requires OwnedItem(projects, sections, items, itemId, user).Ok?
    ensures itemId in items && items[itemId].sectionId in sections
    ensures var p := sections[items[itemId].sectionId].projectId;
      p in projects && projects[p].userId == user.id && (IsProTemplate(projects[p].themeKey) ==> user.isPaid)
  {
  }

  /** `touchProject`: the project's `updatedAt` set to now. */
  function Touch(projects: map<Id, ProjectRow>, projectId: Id, now: Timestamp): (r: map<Id, ProjectRow>)
    ensures r.Keys == projects.Keys
    ensures forall id | id in r :: r[id] == if id == projectId then projects[id].(updatedAt := now) else projects[id]
  {
    if projectId in projects then projects[projectId := projects[projectId].(updatedAt := now)] else projects
  }

  /** Touching a project keeps the tables valid. */
  lemma TouchKeepsValid(projects: map<Id, ProjectRow>, sections: map<Id, SectionRow>, items: map<Id, ItemRow>,
                        projectId: Id, now: Timestamp)
    requires TablesValid(projects, sections, items)
    ensures TablesValid(Touch(projects, projectId, now), sections, items)
  {
  }

  /** New section rows keyed by their ids. */
  function SectionsById(rows: seq<SectionRow>): (m: map<Id, SectionRow>)
    requires forall i, j :: 0 <= i < j < |rows| ==> rows[i].id != rows[j].id
    ensures forall i :: 0 <= i < |rows| ==> rows[i].id in m && m[rows[i].id] == rows[i]
    ensures forall id | id in m :: exists i :: 0 <= i < |rows| && rows[i].id == id
  {
    map i | 0 <= i < |rows| :: rows[i].id := rows[i]
  }

  /** New item rows keyed by their ids. */
  function ItemsById(rows: seq<ItemRow>): (m: map<Id, ItemRow>)
    requires forall i, j :: 0 <= i < j < |rows| ==> rows[i].id != rows[j].id
    ensures forall i :: 0 <= i < |rows| ==> rows[i].id in m && m[rows[i].id] == rows[i]
    ensures forall id | id in m :: exists i :: 0 <= i < |rows| && rows[i].id == id
  {
    map i | 0 <= i < |rows| :: rows[i].id := rows[i]
  }

  /** The project, section and item tables, with the activity feed the handlers report to. */
  class Store {
    var projects: map<Id, ProjectRow>
    var sections: map<Id, SectionRow>
    var items: map<Id, ItemRow>
    ghost var activity: seq<Activity>

    ghost predicate Valid()
      reads this
    {
      TablesValid(projects, sections, items)
    }

    constructor ()
      ensures Valid()
      ensures projects == map[] && sections == map[] && items == map[] && activity == []
    {
      projects, sections, items := map[], map[], map[];
      activity := [];
    }

    /**
     * `createProject`: a private, unpublished project with a unique slug made
     * from the trimmed title, nine default sections and four seed items.
     */
    method CreateProject(user: Option<User>, title: string, themeKey: string,
                         projectId: Id, sectionIds: seq<Id>, itemIds: seq<Id>, now: Timestamp)
      returns (r: Result<ProjectDetail, Error>)
      requires Valid()
      requires projectId !in projects
      requires |sectionIds| == 9 && Distinct(sectionIds) && forall i :: 0 <= i < 9 ==> sectionIds[i] !in sections
      requires |itemIds| == 4 && Distinct(itemIds) && forall j :: 0 <= j < 4 ==> itemIds[j] !in items
      modifies this
      ensures Valid()
      ensures r.Ok? <==> (title != "" && themeKey in TEMPLATE_KEYS && user.Some?
        && !(IsProTemplate(themeKey) && !user.value.isPaid) && Trim(title) != "")
      ensures (title == "" || themeKey !in TEMPLATE_KEYS) ==> r == Err(BadRequest)
      ensures title != "" && themeKey in TEMPLATE_KEYS && user.None? ==> r == Err(Unauthorized)
      ensures title != "" && themeKey in TEMPLATE_KEYS && user.Some? && IsProTemplate(themeKey) && !user.value.isPaid
        ==> r == Err(PaymentRequired)
      ensures r.Err? ==> (projects == old(projects) && sections == old(sections) && items == old(items)
        && activity == old(activity))
      ensures r.Ok? ==> (
        var p := r.value.project;
        var secs := SeedSections(projectId, sectionIds, now);
        var seeds := SeedItems(secs, itemIds, now);
        SeedSectionsFit(projectId, sectionIds, now);
        SeedItemsFit(projectId, sectionIds, itemIds, now);
        p == ProjectRow(projectId, user.value.id, Trim(title), p.slug, PRIVATE, false, None, themeKey, now, now)
        && IsSlug(p.slug) && !SlugTaken(old(projects), p.slug, None)
        && FirstFreeCandidate(old(projects), Slugify(Trim(title)), None, p.slug)
        && projects == old(projects)[projectId := p]
        && sections == old(sections) + SectionsById(secs)
        && items == old(items) + ItemsById(seeds)
        && r.value.sections == SectionsWithItems(secs, seeds)
        && activity == old(activity) + [Activity("portfolio.created", Some(projectId))])
    {
      if title == "" || themeKey !in TEMPLATE_KEYS {
        return Err(BadRequest);
      }
      if user.None? {
        return Err(Unauthorized);
      }
      var u := user.value;
      var denied := EnsureTemplateAccess(themeKey, u.isPaid);
      if denied.Some? {
        return Err(denied.value);
      }
      var cleanTitle := Trim(title);
      if cleanTitle == "" {
        return Err(BadRequest);
      }
      var slug := EnsureUniqueSlug(projects, Slugify(cleanTitle), None);
      ProbedSlugIsSlug(projects, Slugify(cleanTitle), None, slug);
      var project := ProjectRow(projectId, u.id, cleanTitle, slug, PRIVATE, false, None, themeKey, now, now);
      var secs := SeedSections(projectId, sectionIds, now);
      var seeds := SeedItems(secs, itemIds, now);
      SeedSectionsFit(projectId, sectionIds, now);
      SeedItemsFit(projectId, sectionIds, itemIds, now);
      InsertCreated(project, sectionIds, secs, seeds);
      r := Ok(ProjectDetail(project, SectionsWithItems(secs, seeds)));
    }

    /**
     * `updateProject`: changes the fields the caller gives. A title is
     * trimmed and must stay non-blank; a slug is trimmed, slugified and
     * made unique among the other projects; a new template must be one the
     * caller may use.
     */
    method UpdateProject(user: Option<User>, projectId: Id, title: Option<string>, slug: Option<string>,
                         visibility: Option<string>, themeKey: Option<string>, now: Timestamp)
      returns (r: Result<ProjectRow, Error>)
      requires Valid()
      modifies this
      ensures Valid()
      ensures r.Err? ==> (projects == old(projects) && sections == old(sections) && items == old(items)
        && activity == old(activity))
      ensures UpdateInputBad(projectId, title, slug, visibility, themeKey) ==> r == Err(BadRequest)
      ensures !UpdateInputBad(projectId, title, slug, visibility, themeKey) && user.None? ==> r == Err(Unauthorized)
      ensures (!UpdateInputBad(projectId, title, slug, visibility, themeKey) && user.Some?
        && AccessibleProject(old(projects), projectId, user.value).Err?
        ==> r == Err(AccessibleProject(old(projects), projectId, user.value).error))
      ensures r.Ok? <==> (!UpdateInputBad(projectId, title, slug, visibility, themeKey) && user.Some?
        && AccessibleProject(old(projects), projectId, user.value).Ok?
        && UpdateAllowed(title, slug, themeKey, user.value))
      ensures (!UpdateInputBad(projectId, title, slug, visibility, themeKey) && user.Some?
        && AccessibleProject(old(projects), projectId, user.value).Ok? && r.Err?
        ==> r.error == if BlankGiven(title) || BlankGiven(slug) then BadRequest else PaymentRequired)
      ensures r.Ok? ==> (
        var before := old(projects)[projectId];
        var p := r.value;
        p == before.(title := if title.Some? then Trim(title.value) else before.title, slug := p.slug,
                     visibility := visibility.GetOr(before.visibility), themeKey := themeKey.GetOr(before.themeKey),
                     updatedAt := now)
        && (slug.None? ==> p.slug == before.slug)
        && (slug.Some? ==> (IsSlug(p.slug) && !SlugTaken(old(projects), p.slug, Some(projectId))
            && FirstFreeCandidate(old(projects), Slugify(Trim(slug.value)), Some(projectId), p.slug)))
        && projects == old(projects)[projectId := p] && sections == old(sections) && items == old(items)
        && activity == old(activity) + [Activity(
             if visibility.Some? && visibility.value != before.visibility then "visibility.changed"
             else "portfolio.updated", Some(projectId))])
    {
      if UpdateInputBad(projectId, title, slug, visibility, themeKey) {
        return Err(BadRequest);
      }
      if user.None? {
        return Err(Unauthorized);
      }
      var u := user.value;
      var found := AccessibleProject(projects, projectId, u);
      if found.Err? {
        return Err(found.error);
      }
      var before := found.value;
      var newTitle := before.title;
      if title.Some? {
        newTitle := Trim(title.value);
        if newTitle == "" {
          return Err(BadRequest);
        }
      }
      var newSlug := before.slug;
      if slug.Some? {
        var normalized := Trim(slug.value);
        if normalized == "" {
          return Err(BadRequest);
        }
        newSlug := EnsureUniqueSlug(projects, Slugify(normalized), Some(projectId));
        ProbedSlugIsSlug(projects, Slugify(normalized), Some(projectId), newSlug);
      }
      if themeKey.Some? {
        var denied := EnsureTemplateAccess(themeKey.value, u.isPaid);
        if denied.Some? {
          return Err(denied.value);
        }
      }
      var p := before.(title := newTitle, slug := newSlug, visibility := visibility.GetOr(before.visibility),
                       themeKey := themeKey.GetOr(before.themeKey), updatedAt := now);
      var event := if visibility.Some? && visibility.value != before.visibility then "visibility.changed"
                   else "portfolio.updated";
      ReplaceProject(p, Activity(event, Some(projectId)));
      r := Ok(p);
    }

    /** `deleteProject`: removes an owned project, its sections and their items. */
    method DeleteProject(user: Option<User>, projectId: Id) returns (r: Result<(), Error>)
      requires Valid()
      modifies this
      ensures Valid()
      ensures r.Err? ==> (projects == old(projects) && sections == old(sections) && items == old(items)
        && activity == old(activity))
      ensures projectId == "" ==> r == Err(BadRequest)
      ensures projectId != "" && user.None? ==> r == Err(Unauthorized)
      ensures projectId != "" && user.Some? ==> r.Err? == OwnedProject(old(projects), projectId, user.value.id).Err?
      ensures projectId != "" && user.Some? && r.Err? ==> r.error == NotFound
      ensures r.Ok? ==> (projects == old(projects) - {projectId}
        && sections == SectionsOutside(old(sections), projectId)
        && items == ItemsOutside(old(items), old(sections), projectId)
        && activity == old(activity) + [Activity("portfolio.deleted", Some(projectId))])
    {
      if projectId == "" {
        return Err(BadRequest);
      }
      if user.None? {
        return Err(Unauthorized);
      }
      var found := OwnedProject(projects, projectId, user.value.id);
      if found.Err? {
        return Err(found.error);
      }
      DeleteProjectKeepsValid(projects, sections, items, projectId);
      items := ItemsOutside(items, sections, projectId);
      sections := SectionsOutside(sections, projectId);
      projects := projects - {projectId};
      activity := activity + [Activity("portfolio.deleted", Some(projectId))];
      r := Ok(());
    }

    /** `setPublish`: publishes (stamping `publishedAt`) or unpublishes (clearing it) a project. */
    method SetPublish(user: Option<User>, projectId: Id, isPublished: bool, now: Timestamp)
      returns (r: Result<ProjectRow, Error>)
      requires Valid()
      modifies this
      ensures Valid()
      ensures r.Err? ==> (projects == old(projects) && sections == old(sections) && items == old(items)
        && activity == old(activity))
      ensures projectId == "" ==> r == Err(BadRequest)
      ensures projectId != "" && user.None? ==> r == Err(Unauthorized)
      ensures (projectId != "" && user.Some? ==>
        r.Err? == AccessibleProject(old(projects), projectId, user.value).Err?)
      ensures (projectId != "" && user.Some? && r.Err? ==>
        r.error == AccessibleProject(old(projects), projectId, user.value).error)
      ensures r.Ok? ==> (
        r.value == old(projects)[projectId].(isPublished := isPublished,
          publishedAt := if isPublished then Some(now) else None, updatedAt := now)
        && projects == old(projects)[projectId := r.value] && sections == old(sections) && items == old(items)
        && activity == old(activity)
           + [Activity(if isPublished then "portfolio.published" else "portfolio.unpublished", Some(projectId))])
    {
      if projectId == "" {
        return Err(BadRequest);
      }
      if user.None? {
        return Err(Unauthorized);
      }
      var found := AccessibleProject(projects, projectId, user.value);
      if found.Err? {
        return Err(found.error);
      }
      var p := found.value.(isPublished := isPublished, publishedAt := if isPublished then Some(now) else None,
                            updatedAt := now);
      ReplaceProject(p, Activity(if isPublished then "portfolio.published" else "portfolio.unpublished",
                                 Some(projectId)));
      r := Ok(p);
    }

    /** `toggleSection`: shows or hides a section and touches its project. */
    method ToggleSection(user: Option<User>, sectionId: Id, isEnabled: bool, now: Timestamp)
      returns (r: Result<SectionDTO, Error>)
      requires Valid()
      modifies this
      ensures Valid()
      ensures r.Err? ==> (projects == old(projects) && sections == old(sections) && items == old(items)
        && activity == old(activity))
      ensures sectionId == "" ==> r == Err(BadRequest)
      ensures sectionId != "" && user.None? ==> r == Err(Unauthorized)
      ensures (sectionId != "" && user.Some? ==>
        r.Err? == OwnedSection(old(projects), old(sections), sectionId, user.value).Err?)
      ensures (sectionId != "" && user.Some? && r.Err? ==>
        r.error == OwnedSection(old(projects), old(sections), sectionId, user.value).error)
      ensures r.Ok? ==> (
        var s := old(sections)[sectionId].(isEnabled := isEnabled, updatedAt := now);
        r.value == SectionWithItems(s, []) && r.value.items == []
        && sections == old(sections)[sectionId := s]
        && projects == Touch(old(projects), s.projectId, now) && items == old(items)
        && activity == old(activity) + [Activity("section.toggled", Some(sectionId))])
    {
      if sectionId == "" {
        return Err(BadRequest);
      }
      if user.None? {
        return Err(Unauthorized);
      }
      var found := OwnedSection(projects, sections, sectionId, user.value);
      if found.Err? {
        return Err(found.error);
      }
      var s := found.value.(isEnabled := isEnabled, updatedAt := now);
      ReplaceSectionKeepsValid(projects, sections, items, s);
      sections := sections[sectionId := s];
      TouchKeepsValid(projects, sections, items, s.projectId, now);
      projects := Touch(projects, s.projectId, now);
      activity := activity + [Activity("section.toggled", Some(sectionId))];
      r := Ok(SectionWithItems(s, []));
    }

    /**
     * `reorderSections`: every listed id must be a section of the project;
     * the i-th listed section gets order i + 1, and the project is touched.
     */
    method ReorderSections(user: Option<User>, projectId: Id, orderedSectionIds: seq<Id>, now: Timestamp)
      returns (r: Result<(), Error>)
      requires Valid()
      modifies this
      ensures Valid()
      ensures r.Err? ==> (projects == old(projects) && sections == old(sections) && items == old(items)
        && activity == old(activity))
      ensures OrderInputBad(projectId, orderedSectionIds) ==> r == Err(BadRequest)
      ensures !OrderInputBad(projectId, orderedSectionIds) && user.None? ==> r == Err(Unauthorized)
      ensures (!OrderInputBad(projectId, orderedSectionIds) && user.Some?
        && AccessibleProject(old(projects), projectId, user.value).Err?
        ==> r == Err(AccessibleProject(old(projects), projectId, user.value).error))
      ensures r.Ok? <==> (!OrderInputBad(projectId, orderedSectionIds) && user.Some?
        && AccessibleProject(old(projects), projectId, user.value).Ok?
        && AllSectionsOf(old(sections), orderedSectionIds, projectId))
      ensures r.Ok? ==> (
        sections == Reordered(old(sections), orderedSectionIds, SectionOrderSetter(now))
        && projects == Touch(old(projects), projectId, now) && items == old(items) && activity == old(activity))
    {
      if OrderInputBad(projectId, orderedSectionIds) {
        return Err(BadRequest);
      }
      if user.None? {
        return Err(Unauthorized);
      }
      var found := AccessibleProject(projects, projectId, user.value);
      if found.Err? {
        return Err(found.error);
      }
      if !AllSectionsOf(sections, orderedSectionIds, projectId) {
        return Err(BadRequest);
      }
      var reordered := ApplyOrder(sections, orderedSectionIds, SectionOrderSetter(now));
      ReorderSectionsKeepsValid(projects, sections, items, orderedSectionIds, now);
      sections := reordered;
      TouchKeepsValid(projects, sections, items, projectId, now);
      projects := Touch(projects, projectId, now);
      r := Ok(());
    }

    /** `createItem`: appends an item (data defaults to `{}`) at the end of an owned section. */
    method CreateItem(user: Option<User>, sectionId: Id, data: Option<ItemData>, itemId: Id, now: Timestamp)
      returns (r: Result<ItemRow, Error>)
      requires Valid()
      requires itemId !in items
      modifies this
      ensures Valid()
      ensures r.Err? ==> (projects == old(projects) && sections == old(sections) && items == old(items)
        && activity == old(activity))
      ensures sectionId == "" ==> r == Err(BadRequest)
      ensures sectionId != "" && user.None? ==> r == Err(Unauthorized)
      ensures (sectionId != "" && user.Some? ==>
        r.Err? == OwnedSection(old(projects), old(sections), sectionId, user.value).Err?)
      ensures (sectionId != "" && user.Some? && r.Err? ==>
        r.error == OwnedSection(old(projects), old(sections), sectionId, user.value).error)
      ensures r.Ok? ==> (
        r.value == ItemRow(itemId, sectionId, ItemCount(old(items), sectionId) + 1, data.GetOr(EMPTY_DATA), now, now)
        && items == old(items)[itemId := r.value] && sections == old(sections)
        && projects == Touch(old(projects), old(sections)[sectionId].projectId, now)
        && activity == old(activity) + [Activity("item.created", Some(itemId))])
    {
      if sectionId == "" {
        return Err(BadRequest);
      }
      if user.None? {
        return Err(Unauthorized);
      }
      var found := OwnedSection(projects, sections, sectionId, user.value);
      if found.Err? {
        return Err(found.error);
      }
      var item := ItemRow(itemId, sectionId, ItemCount(items, sectionId) + 1, data.GetOr(EMPTY_DATA), now, now);
      PutItemKeepsValid(projects, sections, items, item);
      items := items[itemId := item];
      TouchKeepsValid(projects, sections, items, found.value.projectId, now);
      projects := Touch(projects, found.value.projectId, now);
      activity := activity + [Activity("item.created", Some(itemId))];
      r := Ok(item);
    }

    /** `updateItem`: replaces an owned item's data (defaulting to `{}`) and touches its project. */
    method UpdateItem(user: Option<User>, itemId: Id, data: Option<ItemData>, now: Timestamp)
      returns (r: Result<ItemRow, Error>)
      requires Valid()
      modifies this
      ensures Valid()
      ensures r.Err? ==> (projects == old(projects) && sections == old(sections) && items == old(items)
        && activity == old(activity))
      ensures itemId == "" ==> r == Err(BadRequest)
      ensures itemId != "" && user.None? ==> r == Err(Unauthorized)
      ensures (itemId != "" && user.Some? ==>
        r.Err? == OwnedItem(old(projects), old(sections), old(items), itemId, user.value).Err?)
      ensures (itemId != "" && user.Some? && r.Err? ==>
        r.error == OwnedItem(old(projects), old(sections), old(items), itemId, user.value).error)
      ensures r.Ok? ==> (
        r.value == old(items)[itemId].(data := data.GetOr(EMPTY_DATA), updatedAt := now)
        && items == old(items)[itemId := r.value] && sections == old(sections)
        && projects == Touch(old(projects), old(sections)[r.value.sectionId].projectId, now)
        && activity == old(activity) + [Activity("item.updated", Some(itemId))])
    {
      if itemId == "" {
        return Err(BadRequest);
      }
      if user.None? {
        return Err(Unauthorized);
      }
      var found := OwnedItem(projects, sections, items, itemId, user.value);
      if found.Err? {
        return Err(found.error);
      }
      var item := found.value.0.(data := data.GetOr(EMPTY_DATA), updatedAt := now);
      PutItemKeepsValid(projects, sections, items, item);
      items := items[itemId := item];
      TouchKeepsValid(projects, sections, items, found.value.1.projectId, now);
      projects := Touch(projects, found.value.1.projectId, now);
      activity := activity + [Activity("item.updated", Some(itemId))];
      r := Ok(item);
    }

    /** `deleteItem`: removes an owned item and touches its project. */
    method DeleteItem(user: Option<User>, itemId: Id, now: Timestamp) returns (r: Result<(), Error>)
      requires Valid()
      modifies this
      ensures Valid()
      ensures r.Err? ==> (projects == old(projects) && sections == old(sections) && items == old(items)
        && activity == old(activity))
      ensures itemId == "" ==> r == Err(BadRequest)
      ensures itemId != "" && user.None? ==> r == Err(Unauthorized)
      ensures (itemId != "" && user.Some? ==>
        r.Err? == OwnedItem(old(projects), old(sections), old(items), itemId, user.value).Err?)
      ensures (itemId != "" && user.Some? && r.Err? ==>
        r.error == OwnedItem(old(projects), old(sections), old(items), itemId, user.value).error)
      ensures r.Ok? ==> (
        items == old(items) - {itemId} && sections == old(sections)
        && projects == Touch(old(projects), old(sections)[old(items)[itemId].sectionId].projectId, now)
        && activity == old(activity) + [Activity("item.deleted", Some(itemId))])
    {
      if itemId == "" {
        return Err(BadRequest);
      }
      if user.None? {
        return Err(Unauthorized);
      }
      var found := OwnedItem(projects, sections, items, itemId, user.value);
      if found.Err? {
        return Err(found.error);
      }
      items := items - {itemId};
      TouchKeepsValid(projects, sections, items, found.value.1.projectId, now);
      projects := Touch(projects, found.value.1.projectId, now);
      activity := activity + [Activity("item.deleted", Some(itemId))];
      r := Ok(());
    }

    /**
     * `reorderItems`: every listed id must be an item of the section; the
     * i-th listed item gets order i + 1, and the project is touched.
     */
    method ReorderItems(user: Option<User>, sectionId: Id, orderedItemIds: seq<Id>, now: Timestamp)
      returns (r: Result<(), Error>)
      requires Valid()
      modifies this
      ensures Valid()
      ensures r.Err? ==> (projects == old(projects) && sections == old(sections) && items == old(items)
        && activity == old(activity))
      ensures OrderInputBad(sectionId, orderedItemIds) ==> r == Err(BadRequest)
      ensures !OrderInputBad(sectionId, orderedItemIds) && user.None? ==> r == Err(Unauthorized)
      ensures (!OrderInputBad(sectionId, orderedItemIds) && user.Some?
        && OwnedSection(old(projects), old(sections), sectionId, user.value).Err?
        ==> r == Err(OwnedSection(old(projects), old(sections), sectionId, user.value).error))
      ensures r.Ok? <==> (!OrderInputBad(sectionId, orderedItemIds) && user.Some?
        && OwnedSection(old(projects), old(sections), sectionId, user.value).Ok?
        && AllItemsOf(old(items), orderedItemIds, sectionId))
      ensures r.Ok? ==> (
        items == Reordered(old(items), orderedItemIds, ItemOrderSetter(now)) && sections == old(sections)
        && projects == Touch(old(projects), old(sections)[sectionId].projectId, now)
        && activity == old(activity) + [Activity("item.updated", None)])
    {
      if OrderInputBad(sectionId, orderedItemIds) {
        return Err(BadRequest);
      }
      if user.None? {
        return Err(Unauthorized);
      }
      var found := OwnedSection(projects, sections, sectionId, user.value);
      if found.Err? {
        return Err(found.error);
      }
      if !AllItemsOf(items, orderedItemIds, sectionId) {
        return Err(BadRequest);
      }
      var reordered := ApplyOrder(items, orderedItemIds, ItemOrderSetter(now));
      ReorderItemsKeepsValid(projects, sections, items, orderedItemIds, now);
      items := reordered;
      TouchKeepsValid(projects, sections, items, found.value.projectId, now);
      projects := Touch(projects, found.value.projectId, now);
      activity := activity + [Activity("item.updated", None)];
      r := Ok(());
    }

    /** Stores a changed project row (same id, slug still unique) and reports the activity. */
    method ReplaceProject(p: ProjectRow, event: Activity)
      requires Valid()
      requires p.id in projects && !SlugTaken(projects, p.slug, Some(p.id))
      requires p.publishedAt.Some? <==> p.isPublished
      modifies this
      ensures Valid()
      ensures projects == old(projects)[p.id := p] && sections == old(sections) && items == old(items)
      ensures activity == old(activity) + [event]
    {
      ReplaceProjectKeepsValid(projects, sections, items, p);
      projects := projects[p.id := p];
      activity := activity + [event];
    }

    /** The inserts of `createProject`, in one transaction, and the "portfolio.created" activity entry. */
    method InsertCreated(project: ProjectRow, sectionIds: seq<Id>, secs: seq<SectionRow>, seeds: seq<ItemRow>)
      requires Valid()
      requires project.id !in projects && !SlugTaken(projects, project.slug, None)
      requires project.publishedAt.Some? <==> project.isPublished
      requires |secs| == |sectionIds| && forall i, j :: 0 <= i < j < |secs| ==> secs[i].id != secs[j].id
      requires forall i :: 0 <= i < |secs| ==>
        secs[i].id == sectionIds[i] && secs[i].id !in sections && secs[i].projectId == project.id
      requires forall i, j :: 0 <= i < j < |seeds| ==> seeds[i].id != seeds[j].id
      requires forall i :: 0 <= i < |seeds| ==> seeds[i].id !in items && seeds[i].sectionId in sectionIds
      modifies this
      ensures Valid()
      ensures projects == old(projects)[project.id := project]
      ensures sections == old(sections) + SectionsById(secs)
      ensures items == old(items) + ItemsById(seeds)
      ensures activity == old(activity) + [Activity("portfolio.created", Some(project.id))]
    {
      AddCreatedKeepsValid(projects, sections, items, project, sectionIds, secs, seeds);
      projects := projects[project.id := project];
      sections := sections + SectionsById(secs);
      items := items + ItemsById(seeds);
      activity := activity + [Activity("portfolio.created", Some(project.id))];
    }
  }

  /** Adding a fresh project with a free slug keeps the tables valid. */
  lemma AddProjectKeepsValid(projects: map<Id, ProjectRow>, sections: map<Id, SectionRow>, items: map<Id, ItemRow>,
                             project: ProjectRow)
    requires TablesValid(projects, sections, items)
    requires project.id !in projects && !SlugTaken(projects, project.slug, None)
    requires project.publishedAt.Some? <==> project.isPublished
    ensures TablesValid(projects[project.id := project], sections, items)
  {
    var ps := projects[project.id := project];
    forall a, b | a in ps && b in ps && a != b ensures ps[a].slug != ps[b].slug {
      if a == project.id {
        assert b in projects && projects[b].slug != project.slug;
      } else if b == project.id {
        assert a in projects && projects[a].slug != project.slug;
      }
    }
  }

  /** Adding fresh sections of stored projects keeps the tables valid. */
  lemma AddSectionsKeepsValid(projects: map<Id, ProjectRow>, sections: map<Id, SectionRow>, items: map<Id, ItemRow>,
                              rows: seq<SectionRow>)
    requires TablesValid(projects, sections, items)
    requires forall i, j :: 0 <= i < j < |rows| ==> rows[i].id != rows[j].id
    requires forall i :: 0 <= i < |rows| ==> rows[i].id !in sections && rows[i].projectId in projects
    ensures TablesValid(projects, sections + SectionsById(rows), items)
  {
    var ss := sections + SectionsById(rows);
    forall id | id in ss ensures ss[id].id == id && ss[id].projectId in projects {
      if id in SectionsById(rows) {
        var i :| 0 <= i < |rows| && rows[i].id == id;
      }
    }
  }

  /** Adding fresh items of stored sections keeps the tables valid. */
  lemma AddItemsKeepsValid(projects: map<Id, ProjectRow>, sections: map<Id, SectionRow>, items: map<Id, ItemRow>,
                           rows: seq<ItemRow>)
    requires TablesValid(projects, sections, items)
    requires forall i, j :: 0 <= i < j < |rows| ==> rows[i].id != rows[j].id
    requires forall i :: 0 <= i < |rows| ==> rows[i].id !in items && rows[i].sectionId in sections
    ensures TablesValid(projects, sections, items + ItemsById(rows))
  {
    var its := items + ItemsById(rows);
    forall id | id in its ensures its[id].id == id && its[id].sectionId in sections {
      if id in ItemsById(rows) {
        var i :| 0 <= i < |rows| && rows[i].id == id;
      }
    }
  }

  /** The seeded sections have the distinct ids they were given and belong to the new project. */
  lemma SeedSectionsFit(projectId: Id, sectionIds: seq<Id>, now: Timestamp)
    requires |sectionIds| == 9 && Distinct(sectionIds)
    ensures var secs := SeedSections(projectId, sectionIds, now);
      (forall i, j :: 0 <= i < j < |secs| ==> secs[i].id != secs[j].id)
      && (forall i :: 0 <= i < |secs| ==> secs[i].id == sectionIds[i] && secs[i].projectId == projectId)
  {
  }

  /** The seed items have the distinct ids they were given and point at seeded sections. */
  lemma SeedItemsFit(projectId: Id, sectionIds: seq<Id>, itemIds: seq<Id>, now: Timestamp)
    requires |sectionIds| == 9 && Distinct(sectionIds) && |itemIds| == 4 && Distinct(itemIds)
    ensures var seeds := SeedItems(SeedSections(projectId, sectionIds, now), itemIds, now);
      |seeds| == 4
      && (forall i, j :: 0 <= i < j < |seeds| ==> seeds[i].id != seeds[j].id)
      && (forall i :: 0 <= i < |seeds| ==> seeds[i].id == itemIds[i] && seeds[i].sectionId in sectionIds)
  {
    SeedItemsLayout(projectId, sectionIds, itemIds, now);
  }

  /** Adding a fresh project with a free slug, its fresh sections and their fresh items keeps the tables valid. */
  lemma AddCreatedKeepsValid(projects: map<Id, ProjectRow>, sections: map<Id, SectionRow>, items: map<Id, ItemRow>,
                             project: ProjectRow, sectionIds: seq<Id>, secs: seq<SectionRow>, seeds: seq<ItemRow>)
    requires TablesValid(projects, sections, items)
    requires project.id !in projects && !SlugTaken(projects, project.slug, None)
    requires project.publishedAt.Some? <==> project.isPublished
    requires |secs| == |sectionIds| && forall i, j :: 0 <= i < j < |secs| ==> secs[i].id != secs[j].id
    requires forall i :: 0 <= i < |secs| ==>
      secs[i].id == sectionIds[i] && secs[i].id !in sections && secs[i].projectId == project.id
    requires forall i, j :: 0 <= i < j < |seeds| ==> seeds[i].id != seeds[j].id
    requires forall i :: 0 <= i < |seeds| ==> seeds[i].id !in items && seeds[i].sectionId in sectionIds
    ensures TablesValid(projects[project.id := project], sections + SectionsById(secs), items + ItemsById(seeds))
  {
    var ps := projects[project.id := project];
    AddProjectKeepsValid(projects, sections, items, project);
    AddSectionsKeepsValid(ps, sections, items, secs);
    var ss := sections + SectionsById(secs);
    forall i | 0 <= i < |seeds| ensures seeds[i].sectionId in ss {
      var k :| 0 <= k < |sectionIds| && sectionIds[k] == seeds[i].sectionId;
      assert secs[k].id in SectionsById(secs);
    }
    AddItemsKeepsValid(ps, ss, items, seeds);
  }

  // ------------------------------------------------------------ handler inputs and new states

  /** A present but empty string, which the input schemas reject. */
  predicate BlankGiven(value: Option<string>) {
    value.Some? && Trim(value.value) == ""
  }

  /** What `updateProjectSchema` rejects: an empty id or field, an unknown visibility or template, or no field. */
  predicate UpdateInputBad(projectId: Id, title: Option<string>, slug: Option<string>,
                           visibility: Option<string>, themeKey: Option<string>) {
    projectId == "" || title == Some("") || slug == Some("")
    || (visibility.Some? && !IsVisibility(visibility.value))
    || (themeKey.Some? && themeKey.value !in TEMPLATE_KEYS)
    || (title.None? && slug.None? && visibility.None? && themeKey.None?)
  }

  /** The checks `updateProject` makes after the lookup: non-blank title and slug, an allowed template. */
  predicate UpdateAllowed(title: Option<string>, slug: Option<string>, themeKey: Option<string>, user: User) {
    !BlankGiven(title) && !BlankGiven(slug) && !(themeKey.Some? && IsProTemplate(themeKey.value) && !user.isPaid)
  }

  /** What the reorder schemas reject: an empty parent id, an empty list, or an empty id in it. */
  predicate OrderInputBad(parentId: Id, ids: seq<Id>) {
    parentId == "" || |ids| == 0 || exists i :: 0 <= i < |ids| && ids[i] == ""
  }

  /** Every listed id is a section of the project. */
  predicate AllSectionsOf(sections: map<Id, SectionRow>, ids: seq<Id>, projectId: Id) {
    forall i :: 0 <= i < |ids| ==> ids[i] in sections && sections[ids[i]].projectId == projectId
  }

  /** Every listed id is an item of the section. */
  predicate AllItemsOf(items: map<Id, ItemRow>, ids: seq<Id>, sectionId: Id) {
    forall i :: 0 <= i < |ids| ==> ids[i] in items && items[ids[i]].sectionId == sectionId
  }

  /** The update `reorderSections` makes to one row. */
  function SectionOrderSetter(now: Timestamp): (f: (SectionRow, int) -> SectionRow)
    ensures forall s, o :: f(s, o) == s.(order := o, updatedAt := now)
  {
    (s: SectionRow, o: int) => s.(order := o, updatedAt := now)
  }

  /** The update `reorderItems` makes to one row. */
  function ItemOrderSetter(now: Timestamp): (f: (ItemRow, int) -> ItemRow)
    ensures forall it, o :: f(it, o) == it.(order := o, updatedAt := now)
  {
    (it: ItemRow, o: int) => it.(order := o, updatedAt := now)
  }

  /** The number of items of a section: the `count()` of `createItem`. */
  function ItemCount(items: map<Id, ItemRow>, sectionId: Id): nat {
    |set id | id in items && items[id].sectionId == sectionId|
  }

  /** Storing a new item adds one to its section's count and leaves the other sections' counts alone. */
  lemma NewItemCounted(items: map<Id, ItemRow>, item: ItemRow, sectionId: Id)
    requires item.id !in items
    ensures ItemCount(items[item.id := item], sectionId)
      == ItemCount(items, sectionId) + if item.sectionId == sectionId then 1 else 0
  {
    var grown := items[item.id := item];
    var before := set id | id in items && items[id].sectionId == sectionId;
    var after := set id | id in grown && grown[id].sectionId == sectionId;
    if item.sectionId == sectionId {
      assert after == before + {item.id};
    } else {
      assert after == before;
    }
  }

  /** The sections left after deleting a project: those of other projects. */
  function SectionsOutside(sections: map<Id, SectionRow>, projectId: Id): (r: map<Id, SectionRow>)
    ensures forall id :: id in r <==> id in sections && sections[id].projectId != projectId
    ensures forall id | id in r :: r[id] == sections[id]
  {
    map id | id in sections && sections[id].projectId != projectId :: sections[id]
  }

  /** The items left after deleting a project: those not in one of its sections. */
  function ItemsOutside(items: map<Id, ItemRow>, sections: map<Id, SectionRow>, projectId: Id)
    : (r: map<Id, ItemRow>)
    ensures (forall id :: id in r <==>
      id in items && !(items[id].sectionId in sections && sections[items[id].sectionId].projectId == projectId))
    ensures forall id | id in r :: r[id] == items[id]
  {
    map id | id in items && !(items[id].sectionId in sections && sections[items[id].sectionId].projectId == projectId)
      :: items[id]
  }

  /** Deleting a project with its sections and their items keeps the tables valid. */
  lemma DeleteProjectKeepsValid(projects: map<Id, ProjectRow>, sections: map<Id, SectionRow>,
                                items: map<Id, ItemRow>, projectId: Id)
    requires TablesValid(projects, sections, items)
    ensures TablesValid(projects - {projectId}, SectionsOutside(sections, projectId),
                        ItemsOutside(items, sections, projectId))
  {
  }

  /** Replacing a project row by one with the same id, a unique slug and a matching `publishedAt` keeps the tables valid. */
  lemma ReplaceProjectKeepsValid(projects: map<Id, ProjectRow>, sections: map<Id, SectionRow>,
                                 items: map<Id, ItemRow>, p: ProjectRow)
    requires TablesValid(projects, sections, items)
    requires p.id in projects && !SlugTaken(projects, p.slug, Some(p.id))
    requires p.publishedAt.Some? <==> p.isPublished
    ensures TablesValid(projects[p.id := p], sections, items)
  {
    var ps := projects[p.id := p];
    forall a, b | a in ps && b in ps && a != b ensures ps[a].slug != ps[b].slug {
      if a == p.id {
        assert b in projects && projects[b].slug != p.slug;
      } else if b == p.id {
        assert a in projects && projects[a].slug != p.slug;
      }
    }
  }

  /** Replacing a section row by one with the same id and project keeps the tables valid. */
  lemma ReplaceSectionKeepsValid(projects: map<Id, ProjectRow>, sections: map<Id, SectionRow>,
                                 items: map<Id, ItemRow>, s: SectionRow)
    requires TablesValid(projects, sections, items)
    requires s.id in sections && s.projectId == sections[s.id].projectId
    ensures TablesValid(projects, sections[s.id := s], items)
  {
  }

  /** Storing an item of a stored section under its id keeps the tables valid. */
  lemma PutItemKeepsValid(projects: map<Id, ProjectRow>, sections: map<Id, SectionRow>,
                          items: map<Id, ItemRow>, item: ItemRow)
    requires TablesValid(projects, sections, items)
    requires item.sectionId in sections
    ensures TablesValid(projects, sections, items[item.id := item])
  {
  }

  /** Reordering sections changes only their order and `updatedAt`, so the tables stay valid. */
  lemma ReorderSectionsKeepsValid(projects: map<Id, ProjectRow>, sections: map<Id, SectionRow>,
                                  items: map<Id, ItemRow>, ids: seq<Id>, now: Timestamp)
    requires TablesValid(projects, sections, items)
    ensures TablesValid(projects, Reordered(sections, ids, SectionOrderSetter(now)), items)
  {
    var ss := Reordered(sections, ids, SectionOrderSetter(now));
    forall id | id in ss ensures ss[id].id == id && ss[id].projectId == sections[id].projectId {
      ReorderedRow(sections, ids, SectionOrderSetter(now), id);
    }
  }

  /** Reordering items changes only their order and `updatedAt`, so the tables stay valid. */
  lemma ReorderItemsKeepsValid(projects: map<Id, ProjectRow>, sections: map<Id, SectionRow>,
                               items: map<Id, ItemRow>, ids: seq<Id>, now: Timestamp)
    requires TablesValid(projects, sections, items)
    ensures TablesValid(projects, sections, Reordered(items, ids, ItemOrderSetter(now)))
  {
    var its := Reordered(items, ids, ItemOrderSetter(now));
    forall id | id in its ensures its[id].id == id && its[id].sectionId == items[id].sectionId {
      ReorderedRow(items, ids, ItemOrderSetter(now), id);
    }
  }

  /**
   * With no repeated ids, the i-th listed section ends with order i + 1,
   * and a section not listed keeps its row.
   */
  lemma ReorderedSectionsFollowList(sections: map<Id, SectionRow>, ids: seq<Id>, now: Timestamp)
    requires Distinct(ids)
    ensures var ss := Reordered(sections, ids, SectionOrderSetter(now));
      (forall i :: 0 <= i < |ids| && ids[i] in sections ==> ss[ids[i]].order == i + 1 && ss[ids[i]].updatedAt == now)
      && (forall id | id in sections && id !in ids :: ss[id] == sections[id])
  {
    forall i | 0 <= i < |ids| && ids[i] in sections
      ensures Reordered(sections, ids, SectionOrderSetter(now))[ids[i]].order == i + 1
    {
      LastIndexOfDistinct(ids, i);
    }
  }

  /**
   * With no repeated ids, the i-th listed item ends with order i + 1, and
   * an item not listed keeps its row.
   */
  lemma ReorderedItemsFollowList(items: map<Id, ItemRow>, ids: seq<Id>, now: Timestamp)
    requires Distinct(ids)
    ensures var its := Reordered(items, ids, ItemOrderSetter(now));
      (forall i :: 0 <= i < |ids| && ids[i] in items ==> its[ids[i]].order == i + 1 && its[ids[i]].updatedAt == now)
      && (forall id | id in items && id !in ids :: its[id] == items[id])
  {
    forall i | 0 <= i < |ids| && ids[i] in items
      ensures Reordered(items, ids, ItemOrderSetter(now))[ids[i]].order == i + 1
    {
      LastIndexOfDistinct(ids, i);
    }
  }
}

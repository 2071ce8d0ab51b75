/**
 * The editor's client-side store (`PortfolioCreatorStore`): template
 * selection with its paywall, the preview cache-buster, the drawer and the
 * form it opens, and the updates the store makes to its lists once an action
 * has answered. Action results and the clock are parameters.
 */
module CreatorStore {
  import opened Wrappers
  import opened Content
  import opened Helpers
  import opened Forms

  /** Shown when a pro template is picked without a paid plan. */
  const PAYWALL_MESSAGE: string := "This template is available in Pro."

  /** `TEMPLATE_OPTIONS[0].key`. */
  const DEFAULT_TEMPLATE: string := "classic"

  /** The new-project form. */
  datatype NewProject = NewProject(title: string, themeKey: string)

  /** The project settings form. */
  datatype ProjectMeta = ProjectMeta(title: string, slug: string, visibility: string, isPublished: bool, themeKey: string)

  /** The action `saveActiveSection` sends. */
  datatype SaveRequest =
    | UpdateItemRequest(itemId: Id, data: ItemData)
    | CreateItemRequest(sectionId: Id, data: ItemData)

  function ProjectIdOf(p: ProjectRow): Id { p.id }

  function ItemIdOf(it: ItemRow): Id { it.id }

  // ------------------------------------------------------------ list updates

  /** `xs.map((x) => (x.id === y.id ? y : x))`. */
  function ReplaceWhere<T>(xs: seq<T>, y: T, idOf: T -> Id): (r: seq<T>)
    ensures |r| == |xs|
    ensures forall i :: 0 <= i < |xs| && idOf(xs[i]) != idOf(y) ==> r[i] == xs[i]
    ensures forall i :: 0 <= i < |xs| && idOf(xs[i]) == idOf(y) ==> r[i] == y
  {
    if |xs| == 0 then []
    else [if idOf(xs[0]) == idOf(y) then y else xs[0]] + ReplaceWhere(xs[1..], y, idOf)
  }

  /** `xs.filter((x) => x.id !== id)`. */
  function RemoveWhere<T(==,!new)>(xs: seq<T>, id: Id, idOf: T -> Id): (r: seq<T>)
    ensures |r| <= |xs|
    ensures |r| < |xs| <==> exists i :: 0 <= i < |xs| && idOf(xs[i]) == id
    ensures forall x :: x in r <==> x in xs && idOf(x) != id
    ensures (forall i :: 0 <= i < |xs| ==> idOf(xs[i]) != id) ==> r == xs
  {
    if |xs| == 0 then []
    else if idOf(xs[0]) == id then RemoveWhere(xs[1..], id, idOf)
    else [xs[0]] + RemoveWhere(xs[1..], id, idOf)
  }

  /** Replacing is idempotent and keeps every entry's id. */
  lemma {:induction false} ReplaceWhereStable<T>(xs: seq<T>, y: T, idOf: T -> Id)
    ensures ReplaceWhere(ReplaceWhere(xs, y, idOf), y, idOf) == ReplaceWhere(xs, y, idOf)
    ensures forall i :: 0 <= i < |xs| ==> idOf(ReplaceWhere(xs, y, idOf)[i]) == idOf(xs[i])
  {
    if |xs| > 0 {
      ReplaceWhereStable(xs[1..], y, idOf);
      assert ReplaceWhere(xs, y, idOf)[1..] == ReplaceWhere(xs[1..], y, idOf);
    }
  }

  // ------------------------------------------------------------ the active section

  /** The position of the first section with the key: `sections.find((entry) => entry.key === key)`. */
  function FindKey(sections: seq<SectionDTO>, key: string): (r: Option<nat>)
    ensures r.Some? ==> (r.value < |sections| && sections[r.value].key == key
      && forall j :: 0 <= j < r.value ==> sections[j].key != key)
    ensures r.None? ==> forall j :: 0 <= j < |sections| ==> sections[j].key != key
  {
    if |sections| == 0 then None
    else if sections[0].key == key then Some(0)
    else match FindKey(sections[1..], key)
      case None => None
      case Some(i) => Some(i + 1)
  }

  /** The items of the found section are the ones `getSectionItems` reads. */
  lemma {:induction false} FindKeyItems(sections: seq<SectionDTO>, key: string)
    requires FindKey(sections, key).Some?
    ensures GetSectionItems(sections, key) == sections[FindKey(sections, key).value].items
  {
    if sections[0].key != key {
      FindKeyItems(sections[1..], key);
    }
  }

  /** The payload `openSection` puts into the form: a single section's first item, else `{}`. */
  function OpenedData(active: Option<ProjectDetail>, key: SectionKey): (d: ItemData)
    ensures !IsSingleSection(key) || active.None? ==> d == EMPTY_DATA
    ensures (IsSingleSection(key) && active.Some? && FindKey(active.value.sections, key).Some?
      ==> d == FirstData(active.value.sections[FindKey(active.value.sections, key).value].items))
  {
    if active.Some? && IsSingleSection(key) then
      if FindKey(active.value.sections, key).Some? then
        FindKeyItems(active.value.sections, key);
        FirstData(GetSectionItems(active.value.sections, key))
      else EMPTY_DATA
    else EMPTY_DATA
  }

  /**
   * The request `saveActiveSection` sends, or None when it returns early (no
   * active section key, no loaded project, or no section with the key). A
   * single section updates its first item when it has one; a collection
   * updates the item being edited, otherwise appends.
   */
  function SaveRequestFor(key: Option<SectionKey>, active: Option<ProjectDetail>, editing: Option<Id>, form: FormData)
    : (r: Option<SaveRequest>)
    ensures r.Some? <==> (key.Some? && active.Some? && active.value.project.id != ""
      && FindKey(active.value.sections, key.value).Some?)
    ensures r.Some? ==> r.value.data == ToPayload(key.value, form)
    ensures (r.Some? && IsSingleSection(key.value) ==>
      var s := active.value.sections[FindKey(active.value.sections, key.value).value];
      r.value == if |s.items| > 0 then UpdateItemRequest(s.items[0].id, r.value.data)
                 else CreateItemRequest(s.id, r.value.data))
    ensures (r.Some? && !IsSingleSection(key.value) ==>
      var s := active.value.sections[FindKey(active.value.sections, key.value).value];
      r.value == if editing.Some? && editing.value != "" then UpdateItemRequest(editing.value, r.value.data)
                 else CreateItemRequest(s.id, r.value.data))
  {
    if key.None? || active.None? || active.value.project.id == "" then None
    else match FindKey(active.value.sections, key.value)
      case None => None
      case Some(i) =>
        var s := active.value.sections[i];
        var payload := ToPayload(key.value, form);
        if IsSingleSection(key.value) then
          Some(if |s.items| > 0 then UpdateItemRequest(s.items[0].id, payload) else CreateItemRequest(s.id, payload))
        else
          Some(if editing.Some? && editing.value != "" then UpdateItemRequest(editing.value, payload)
               else CreateItemRequest(s.id, payload))
  }

  /** The section's items once the saved item comes back: a single section holds just it; a collection replaces or appends it. */
  function SavedItems(key: SectionKey, items: seq<ItemRow>, editing: Option<Id>, saved: ItemRow): (r: seq<ItemRow>)
    ensures IsSingleSection(key) ==> r == [saved]
    ensures (!IsSingleSection(key) && editing.Some? && editing.value != "" ==>
      |r| == |items| && forall i :: 0 <= i < |items| ==> r[i] == if items[i].id == saved.id then saved else items[i])
    ensures !IsSingleSection(key) && !(editing.Some? && editing.value != "") ==> r == items + [saved]
    ensures saved in r
      || (!IsSingleSection(key) && editing.Some? && editing.value != "" && forall i :: 0 <= i < |items| ==> items[i].id != saved.id)
  {
    if IsSingleSection(key) then [saved]
    else if editing.Some? && editing.value != "" then ReplaceWhere(items, saved, ItemIdOf)
    else items + [saved]
  }

  /** Reopening a single section after its save shows the saved payload, so saving again stores it unchanged. */
  lemma SavedSingletonReopens(detail: ProjectDetail, key: SectionKey, saved: ItemRow, form: FormData)
    requires IsSingleSection(key) && FindKey(detail.sections, key).Some?
    requires saved.data == ToPayload(key, form)
    ensures var i := FindKey(detail.sections, key).value;
      var after := detail.(sections := detail.sections[i := detail.sections[i].(items := [saved])]);
      OpenedData(Some(after), key) == ToPayload(key, form)
      && ToPayload(key, ToFormData(key, OpenedData(Some(after), key))) == ToPayload(key, form)
  {
    var i := FindKey(detail.sections, key).value;
    var after := detail.(sections := detail.sections[i := detail.sections[i].(items := [saved])]);
    FindKeyAfterUpdate(detail.sections, key, i, [saved]);
    PayloadSurvivesReopen(key, form);
  }

  /** Changing the items of the found section does not move the section the key finds. */
  lemma FindKeyAfterUpdate(sections: seq<SectionDTO>, key: string, i: nat, items: seq<ItemRow>)
    requires FindKey(sections, key) == Some(i)
    ensures FindKey(sections[i := sections[i].(items := items)], key) == Some(i)
  {
    var after := sections[i := sections[i].(items := items)];
    assert after[i].key == key;
    assert forall j :: 0 <= j < i ==> after[j].key == sections[j].key;
    FindKeyFirst(after, key, i);
  }

  /** The first position holding the key is the one `FindKey` returns. */
  lemma {:induction false} FindKeyFirst(sections: seq<SectionDTO>, key: string, i: nat)
    requires i < |sections| && sections[i].key == key
    requires forall j :: 0 <= j < i ==> sections[j].key != key
    ensures FindKey(sections, key) == Some(i)
  {
    if i > 0 {
      FindKeyFirst(sections[1..], key, i - 1);
    }
  }

  /** The value of every `PortfolioCreatorStore` field at one moment. */
  datatype StoreState = StoreState(
    projects: seq<ProjectRow>, activeProject: Option<ProjectDetail>, activeProjectId: Option<Id>,
    drawerOpen: bool, activeSectionKey: Option<SectionKey>, editingItemId: Option<Id>, formData: FormData,
    previewBuster: int, isPaid: bool, paywallMessage: Option<string>, newProject: NewProject,
    projectMeta: ProjectMeta, pendingDeleteId: Option<Id>)

  /** The cache-buster `bumpPreview` sets: the clock's reading, unless that equals the current value. */
  function Bumped(current: int, now: int): (r: int)
    ensures r != current
    ensures r == now || r == now + 1
  {
    if now == current then now + 1 else now
  }

  /** The `PortfolioCreatorStore` fields the modelled updates read and write. */
  class PortfolioCreatorStore {
    var projects: seq<ProjectRow>
    var activeProject: Option<ProjectDetail>
    var activeProjectId: Option<Id>
    var drawerOpen: bool
    var activeSectionKey: Option<SectionKey>
    var editingItemId: Option<Id>
    var formData: FormData
    var previewBuster: int
    var isPaid: bool
    var paywallMessage: Option<string>
    var newProject: NewProject
    var projectMeta: ProjectMeta
    var pendingDeleteId: Option<Id>

    /** The field initialisers; `previewBuster` starts at the clock's reading. */
    constructor (now: int)
      ensures projects == [] && activeProject == None && activeProjectId == None
      ensures !drawerOpen && activeSectionKey == None && editingItemId == None && formData == EMPTY_FORM
      ensures previewBuster == now && !isPaid && paywallMessage == None && pendingDeleteId == None
      ensures newProject == NewProject("", DEFAULT_TEMPLATE)
      ensures projectMeta == ProjectMeta("", "", PRIVATE, false, DEFAULT_TEMPLATE)
    {
      projects := [];
      activeProject := None;
      activeProjectId := None;
      drawerOpen := false;
      activeSectionKey := None;
      editingItemId := None;
      formData := EMPTY_FORM;
      previewBuster := now;
      isPaid := false;
      paywallMessage := None;
      newProject := NewProject("", DEFAULT_TEMPLATE);
      projectMeta := ProjectMeta("", "", PRIVATE, false, DEFAULT_TEMPLATE);
      pendingDeleteId := None;
    }

    /** All fields together, so that a method can say what it leaves unchanged. */
    function State(): StoreState
      reads this
    {
      StoreState(
        projects, activeProject, activeProjectId, drawerOpen, activeSectionKey, editingItemId, formData,
        previewBuster, isPaid, paywallMessage, newProject, projectMeta, pendingDeleteId)
    }

    /** `isTemplateLocked`: a pro template is locked for an unpaid user. */
    predicate IsTemplateLocked(templateKey: string)
      reads this
      ensures IsTemplateLocked(templateKey) <==> (templateKey == "minimal" || templateKey == "story") && !isPaid
    {
      IsProTemplate(templateKey) && !isPaid
    }

    /** `selectNewTemplate`: a locked template shows the paywall; another is picked for the new project. */
    method SelectNewTemplate(templateKey: string)
      modifies this
      ensures (old(IsTemplateLocked(templateKey)) ==>
        paywallMessage == Some(PAYWALL_MESSAGE) && newProject == old(newProject))
      ensures (!old(IsTemplateLocked(templateKey)) ==>
        paywallMessage == None && newProject == old(newProject).(themeKey := templateKey))
      ensures projectMeta == old(projectMeta) && isPaid == old(isPaid) && projects == old(projects)
      ensures activeProject == old(activeProject) && previewBuster == old(previewBuster)
      ensures State() == if old(IsTemplateLocked(templateKey)) then old(State()).(paywallMessage := Some(PAYWALL_MESSAGE))
        else old(State()).(paywallMessage := None, newProject := old(newProject).(themeKey := templateKey))
    {
      if IsTemplateLocked(templateKey) {
        paywallMessage := Some(PAYWALL_MESSAGE);
        return;
      }
      paywallMessage := None;
      newProject := newProject.(themeKey := templateKey);
    }

    /** `selectProjectTemplate`: as `selectNewTemplate`, for the open project's settings. */
    method SelectProjectTemplate(templateKey: string)
      modifies this
      ensures (old(IsTemplateLocked(templateKey)) ==>
        paywallMessage == Some(PAYWALL_MESSAGE) && projectMeta == old(projectMeta))
      ensures (!old(IsTemplateLocked(templateKey)) ==>
        paywallMessage == None && projectMeta == old(projectMeta).(themeKey := templateKey))
      ensures newProject == old(newProject) && isPaid == old(isPaid) && projects == old(projects)
      ensures activeProject == old(activeProject) && previewBuster == old(previewBuster)
      ensures State() == if old(IsTemplateLocked(templateKey)) then old(State()).(paywallMessage := Some(PAYWALL_MESSAGE))
        else old(State()).(paywallMessage := None, projectMeta := old(projectMeta).(themeKey := templateKey))
    {
      if IsTemplateLocked(templateKey) {
        paywallMessage := Some(PAYWALL_MESSAGE);
        return;
      }
      paywallMessage := None;
      projectMeta := projectMeta.(themeKey := templateKey);
    }

    /** `bumpPreview`: the clock's reading, or one more when that equals the current value, so the preview URL always changes. */
    method BumpPreview(now: int)
      modifies this
      ensures previewBuster != old(previewBuster)
      ensures previewBuster == now || (now == old(previewBuster) && previewBuster == now + 1)
      ensures projects == old(projects) && activeProject == old(activeProject) && activeProjectId == old(activeProjectId)
      ensures editingItemId == old(editingItemId) && formData == old(formData) && drawerOpen == old(drawerOpen)
      ensures activeSectionKey == old(activeSectionKey) && paywallMessage == old(paywallMessage)
      ensures projectMeta == old(projectMeta) && newProject == old(newProject) && pendingDeleteId == old(pendingDeleteId)
      ensures State() == old(State()).(previewBuster := Bumped(old(previewBuster), now))
    {
      previewBuster := if now == previewBuster then now + 1 else now;
    }

    /** The answer's error message, or the stock paywall text when it has none (`res.error.message || PAYWALL_MESSAGE`). */
    method ShowPaywall(message: string)
      modifies this
      ensures paywallMessage == Some(if message == "" then PAYWALL_MESSAGE else message)
      ensures projects == old(projects) && activeProject == old(activeProject) && previewBuster == old(previewBuster)
      ensures editingItemId == old(editingItemId) && formData == old(formData)
      ensures State() == old(State()).(paywallMessage := Some(if message == "" then PAYWALL_MESSAGE else message))
    {
      paywallMessage := Some(if message == "" then PAYWALL_MESSAGE else message);
    }

    /** `updateProjectInList`: every listed project with the id becomes the given one; the rest are kept. */
    method UpdateProjectInList(project: ProjectRow)
      modifies this
      ensures projects == ReplaceWhere(old(projects), project, ProjectIdOf)
      ensures activeProject == old(activeProject) && previewBuster == old(previewBuster)
      ensures State() == old(State()).(projects := ReplaceWhere(old(projects), project, ProjectIdOf))
    {
      projects := ReplaceWhere(projects, project, ProjectIdOf);
    }

    /**
     * After `updateProject` answers: the paywall message cleared before the
     * request stays cleared, and the open project, the list and the settings
     * form take the saved row.
     */
    method ApplyProjectSaved(project: ProjectRow, now: int)
      requires activeProject.Some?
      modifies this
      ensures activeProject == Some(old(activeProject).value.(project := project))
      ensures projects == ReplaceWhere(old(projects), project, ProjectIdOf)
      ensures projectMeta == ProjectMeta(project.title, project.slug, project.visibility, project.isPublished,
                                         project.themeKey)
      ensures previewBuster != old(previewBuster) && paywallMessage == None
      ensures State() == old(State()).(
        activeProject := Some(old(activeProject).value.(project := project)),
        projects := ReplaceWhere(old(projects), project, ProjectIdOf),
        projectMeta := ProjectMeta(project.title, project.slug, project.visibility, project.isPublished, project.themeKey),
        paywallMessage := None,
        previewBuster := Bumped(old(previewBuster), now))
    {
      paywallMessage := None;
      activeProject := Some(activeProject.value.(project := project));
      UpdateProjectInList(project);
      projectMeta := ProjectMeta(project.title, project.slug, project.visibility, project.isPublished, project.themeKey);
      BumpPreview(now);
    }

    /** After `deleteProject` answers: the project leaves the list, and the open project is closed when it was the one. */
    method ApplyProjectDeleted(id: Id)
      modifies this
      ensures projects == RemoveWhere(old(projects), id, ProjectIdOf)
      ensures forall p :: p in projects <==> p in old(projects) && p.id != id
      ensures (old(activeProject).Some? && old(activeProject).value.project.id == id
        ==> activeProject == None && activeProjectId == None)
      ensures (!(old(activeProject).Some? && old(activeProject).value.project.id == id)
        ==> activeProject == old(activeProject) && activeProjectId == old(activeProjectId))
      ensures pendingDeleteId == None && previewBuster == old(previewBuster)
      ensures State() == old(State()).(projects := projects, activeProject := activeProject,
        activeProjectId := activeProjectId, pendingDeleteId := None)
    {
      ghost var before := State();
      var closes := activeProject.Some? && activeProject.value.project.id == id;
      projects := RemoveWhere(projects, id, ProjectIdOf);
      activeProject := if closes then None else activeProject;
      activeProjectId := if closes then None else activeProjectId;
      pendingDeleteId := None;
      assert State() == before.(projects := projects, activeProject := activeProject,
        activeProjectId := activeProjectId, pendingDeleteId := None);
    }

    /** `openSection`: opens the drawer on a section with a fresh form (a single section's form holds its item). */
    method OpenSection(key: SectionKey)
      modifies this
      ensures activeSectionKey == Some(key) && drawerOpen && editingItemId == None
      ensures formData == ToFormData(key, OpenedData(old(activeProject), key))
      ensures activeProject == old(activeProject) && projects == old(projects) && previewBuster == old(previewBuster)
      ensures State() == old(State()).(activeSectionKey := Some(key), drawerOpen := true, editingItemId := None,
        formData := ToFormData(key, OpenedData(old(activeProject), key)))
    {
      ghost var before := State();
      var form := ToFormData(key, OpenedData(activeProject, key));
      activeSectionKey, drawerOpen, editingItemId, formData := Some(key), true, None, form;
      assert State() == before.(activeSectionKey := Some(key), drawerOpen := true, editingItemId := None,
        formData := form);
    }

    /** `closeDrawer`: closes the drawer and stops editing. */
    method CloseDrawer()
      modifies this
      ensures !drawerOpen && editingItemId == None
      ensures activeSectionKey == old(activeSectionKey) && formData == old(formData)
      ensures activeProject == old(activeProject) && projects == old(projects)
      ensures State() == old(State()).(drawerOpen := false, editingItemId := None)
    {
      drawerOpen := false;
      editingItemId := None;
    }

    /** `editItem`: with a section open, edits the item in a form filled from it; otherwise nothing happens. */
    method EditItem(item: ItemRow)
      modifies this
      ensures (old(activeSectionKey).Some? ==>
        editingItemId == Some(item.id) && drawerOpen && formData == ToFormData(old(activeSectionKey).value, item.data))
      ensures (old(activeSectionKey).None? ==>
        editingItemId == old(editingItemId) && drawerOpen == old(drawerOpen) && formData == old(formData))
      ensures activeSectionKey == old(activeSectionKey) && activeProject == old(activeProject)
      ensures State() == if old(activeSectionKey).None? then old(State())
        else old(State()).(editingItemId := Some(item.id), drawerOpen := true,
          formData := ToFormData(old(activeSectionKey).value, item.data))
    {
      if activeSectionKey.None? {
        return;
      }
      editingItemId := Some(item.id);
      formData := ToFormData(activeSectionKey.value, item.data);
      drawerOpen := true;
    }

    /**
     * After the save request of `saveActiveSection` answers (with the saved
     * item, when the answer carries one): the paywall message cleared before
     * the request stays cleared, the active section's items take it, editing
     * stops and the preview is refreshed.
     */
    method ApplySectionSaved(saved: Option<ItemRow>, now: int)
      requires activeSectionKey.Some? && activeProject.Some? && activeProject.value.project.id != ""
      requires FindKey(activeProject.value.sections, activeSectionKey.value).Some?
      modifies this
      ensures (
        var key := old(activeSectionKey).value;
        var detail := old(activeProject).value;
        var i := FindKey(detail.sections, key).value;
        var items := if saved.Some? then SavedItems(key, detail.sections[i].items, old(editingItemId), saved.value)
                     else detail.sections[i].items;
        activeProject == Some(detail.(sections := detail.sections[i := detail.sections[i].(items := items)])))
      ensures editingItemId == None && previewBuster != old(previewBuster) && paywallMessage == None
      ensures activeSectionKey == old(activeSectionKey) && projects == old(projects) && formData == old(formData)
      ensures State() == old(State()).(activeProject := activeProject, editingItemId := None, paywallMessage := None,
        previewBuster := Bumped(old(previewBuster), now))
    {
      ghost var before := State();
      paywallMessage := None;
      var key := activeSectionKey.value;
      var detail := activeProject.value;
      var i := FindKey(detail.sections, key).value;
      var items := if saved.Some? then SavedItems(key, detail.sections[i].items, editingItemId, saved.value)
                   else detail.sections[i].items;
      activeProject := Some(detail.(sections := detail.sections[i := detail.sections[i].(items := items)]));
      editingItemId := None;
      ghost var saving := State();
      assert saving == before.(activeProject := activeProject, editingItemId := None, paywallMessage := None);
      BumpPreview(now);
      assert State() == saving.(previewBuster := Bumped(before.previewBuster, now));
    }

    /**
     * After `deleteItem` answers: with a project and an existing section open,
     * the paywall message is cleared, the item leaves the section and the
     * preview is refreshed; otherwise nothing changes.
     */
    method ApplyItemDeleted(itemId: Id, now: int)
      modifies this
      ensures (
        var ready := old(activeProject).Some? && old(activeProject).value.project.id != ""
          && old(activeSectionKey).Some? && FindKey(old(activeProject).value.sections, old(activeSectionKey).value).Some?;
        (!ready ==>
          activeProject == old(activeProject) && previewBuster == old(previewBuster)
          && paywallMessage == old(paywallMessage))
        && (ready ==>
          paywallMessage == None &&
          var detail := old(activeProject).value;
          var i := FindKey(detail.sections, old(activeSectionKey).value).value;
          var items := RemoveWhere(detail.sections[i].items, itemId, ItemIdOf);
          activeProject == Some(detail.(sections := detail.sections[i := detail.sections[i].(items := items)]))
          && previewBuster != old(previewBuster)))
      ensures activeSectionKey == old(activeSectionKey) && projects == old(projects)
      ensures State() == old(State()).(activeProject := activeProject, paywallMessage := paywallMessage,
        previewBuster := previewBuster)
      ensures previewBuster == old(previewBuster) || previewBuster == Bumped(old(previewBuster), now)
    {
      if activeProject.None? || activeProject.value.project.id == "" || activeSectionKey.None? {
        return;
      }
      var detail := activeProject.value;
      var found := FindKey(detail.sections, activeSectionKey.value);
      if found.None? {
        return;
      }
      paywallMessage := None;
      var i := found.value;
      var items := RemoveWhere(detail.sections[i].items, itemId, ItemIdOf);
      activeProject := Some(detail.(sections := detail.sections[i := detail.sections[i].(items := items)]));
      BumpPreview(now);
    }
  }

  /** A single section with an item saves into that item rather than creating a second one. */
  lemma SingleSectionUpdatesInPlace(key: SectionKey, active: ProjectDetail, editing: Option<Id>, form: FormData)
    requires IsSingleSection(key) && active.project.id != ""
    requires FindKey(active.sections, key).Some?
    requires |active.sections[FindKey(active.sections, key).value].items| > 0
    ensures SaveRequestFor(Some(key), Some(active), editing, form)
      == Some(UpdateItemRequest(active.sections[FindKey(active.sections, key).value].items[0].id, ToPayload(key, form)))
  {
  }
}

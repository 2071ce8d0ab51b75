/**
 * The older portfolio API: portfolios owned by a user, at most one of them
 * the user's default, each holding a list of work projects. The two tables
 * are maps from id to row; the caller, the clock and fresh ids are
 * parameters.
 */
module Legacy {
  import opened Wrappers
  import opened Content
  import opened Auth

  /** A row of `Portfolios`, as the handlers read and write it. */
  datatype Portfolio = Portfolio(
    id: Id, userId: Id, title: string, summary: Option<string>, isDefault: bool,
    createdAt: Timestamp, updatedAt: Timestamp)

  /** A row of `PortfolioProjects`, as the handlers read and write it. */
  datatype WorkProject = WorkProject(
    id: Id, portfolioId: Id, title: string, role: Option<string>, companyName: Option<string>,
    startDate: Option<Timestamp>, endDate: Option<Timestamp>, isCurrent: bool,
    description: Option<string>, skills: Option<string>, orderIndex: Option<int>,
    createdAt: Timestamp, updatedAt: Timestamp)

  /** A value of the update record `updatePortfolio` builds. */
  datatype FieldValue = Text(text: string) | Flag(flag: bool)

  /** One `[key, value]` pair of `Object.entries(rest)`; None stands for `undefined`. */
  datatype Entry = Entry(key: string, value: Option<FieldValue>)

  // ------------------------------------------------------------ invariants

  /** No user has two default portfolios. */
  predicate AtMostOneDefault(portfolios: map<Id, Portfolio>) {
    forall a, b | a in portfolios && b in portfolios ::
      portfolios[a].isDefault && portfolios[b].isDefault && portfolios[a].userId == portfolios[b].userId ==> a == b
  }

  /** Each row is stored under its own id. */
  predicate PortfolioKeysMatch(portfolios: map<Id, Portfolio>) {
    forall id | id in portfolios :: portfolios[id].id == id
  }

  predicate WorkProjectKeysMatch(projects: map<Id, WorkProject>) {
    forall id | id in projects :: projects[id].id == id
  }

  // ------------------------------------------------------------ default clearing

  /** `createPortfolio`'s reset: every portfolio of the user stops being the default and is stamped. */
  function ResetDefaults(portfolios: map<Id, Portfolio>, userId: Id, now: Timestamp): (r: map<Id, Portfolio>)
    ensures r.Keys == portfolios.Keys
    ensures forall id | id in r && portfolios[id].userId != userId :: r[id] == portfolios[id]
    ensures forall id | id in r && portfolios[id].userId == userId :: r[id] == portfolios[id].(isDefault := false, updatedAt := now)
  {
    map id | id in portfolios :: if portfolios[id].userId == userId then portfolios[id].(isDefault := false, updatedAt := now)
                                 else portfolios[id]
  }

  /** `updatePortfolio`'s reset: only the user's current default is cleared and stamped. */
  function ClearDefault(portfolios: map<Id, Portfolio>, userId: Id, now: Timestamp): (r: map<Id, Portfolio>)
    ensures r.Keys == portfolios.Keys
    ensures (forall id | id in r && !(portfolios[id].userId == userId && portfolios[id].isDefault) ::
      r[id] == portfolios[id])
    ensures (forall id | id in r && portfolios[id].userId == userId && portfolios[id].isDefault ::
      r[id] == portfolios[id].(isDefault := false, updatedAt := now))
  {
    map id | id in portfolios ::
      if portfolios[id].userId == userId && portfolios[id].isDefault then portfolios[id].(isDefault := false, updatedAt := now)
      else portfolios[id]
  }

  /** After either reset the user has no default left, and the invariants still hold. */
  lemma ResetsLeaveNoDefault(portfolios: map<Id, Portfolio>, userId: Id, now: Timestamp)
    requires AtMostOneDefault(portfolios) && PortfolioKeysMatch(portfolios)
    ensures (forall id | id in ResetDefaults(portfolios, userId, now) ::
      ResetDefaults(portfolios, userId, now)[id].userId == userId ==> !ResetDefaults(portfolios, userId, now)[id].isDefault)
    ensures (forall id | id in ClearDefault(portfolios, userId, now) ::
      ClearDefault(portfolios, userId, now)[id].userId == userId ==> !ClearDefault(portfolios, userId, now)[id].isDefault)
    ensures AtMostOneDefault(ResetDefaults(portfolios, userId, now)) && PortfolioKeysMatch(ResetDefaults(portfolios, userId, now))
    ensures AtMostOneDefault(ClearDefault(portfolios, userId, now)) && PortfolioKeysMatch(ClearDefault(portfolios, userId, now))
  {
  }

  /** Storing a row keeps at most one default per user when the row is not a default, or its user has none elsewhere. */
  lemma PutKeepsOneDefault(portfolios: map<Id, Portfolio>, p: Portfolio)
    requires AtMostOneDefault(portfolios) && PortfolioKeysMatch(portfolios)
    requires (p.isDefault ==>
      forall id | id in portfolios && id != p.id :: portfolios[id].userId == p.userId ==> !portfolios[id].isDefault)
    ensures AtMostOneDefault(portfolios[p.id := p]) && PortfolioKeysMatch(portfolios[p.id := p])
  {
    var ps := portfolios[p.id := p];
    forall a, b | a in ps && b in ps && ps[a].isDefault && ps[b].isDefault && ps[a].userId == ps[b].userId
      ensures a == b
    {
      if a != p.id && b != p.id {
        assert portfolios[a] == ps[a] && portfolios[b] == ps[b];
      }
    }
  }

  // ------------------------------------------------------------ the update record

  /** The record the `for (const [key, value] of Object.entries(rest))` loop builds: the defined entries, later ones winning. */
  function Defined(entries: seq<Entry>): (d: map<string, FieldValue>)
    ensures forall k :: k in d <==> exists i :: 0 <= i < |entries| && entries[i].key == k && entries[i].value.Some?
  {
    if |entries| == 0 then map[]
    else
      var last := entries[|entries| - 1];
      var before := Defined(entries[..|entries| - 1]);
      assert forall i :: 0 <= i < |entries| - 1 ==> entries[..|entries| - 1][i] == entries[i];
      if last.value.Some? then before[last.key := last.value.value] else before
  }

  /** The loop itself: copies each defined entry into the record. */
  method CollectDefined(entries: seq<Entry>) returns (updateData: map<string, FieldValue>)
    ensures updateData == Defined(entries)
  {
    updateData := map[];
    var i := 0;
    while i < |entries|
      invariant 0 <= i <= |entries|
      invariant updateData == Defined(entries[..i])
    {
      assert entries[..i + 1][..i] == entries[..i];
      if entries[i].value.Some? {
        updateData := updateData[entries[i].key := entries[i].value.value];
      }
      i := i + 1;
    }
    assert entries[..i] == entries;
  }

  /** `rest`: the fields of `updatePortfolio`'s input other than the id. */
  function UpdateEntries(title: Option<string>, summary: Option<string>, isDefault: Option<bool>): seq<Entry> {
    [Entry("title", if title.Some? then Some(Text(title.value)) else None),
     Entry("summary", if summary.Some? then Some(Text(summary.value)) else None),
     Entry("isDefault", if isDefault.Some? then Some(Flag(isDefault.value)) else None)]
  }

  /** The record is empty exactly when no field is given, and holds each given field under its name. */
  lemma UpdateRecordFields(title: Option<string>, summary: Option<string>, isDefault: Option<bool>)
    ensures var d := Defined(UpdateEntries(title, summary, isDefault));
      (|d| == 0 <==> title.None? && summary.None? && isDefault.None?)
      && ("title" in d <==> title.Some?) && (title.Some? ==> d["title"] == Text(title.value))
      && ("summary" in d <==> summary.Some?) && (summary.Some? ==> d["summary"] == Text(summary.value))
      && ("isDefault" in d <==> isDefault.Some?) && (isDefault.Some? ==> d["isDefault"] == Flag(isDefault.value))
  {
    var e := UpdateEntries(title, summary, isDefault);
    assert e[..3] == e && e[..3][..2] == e[..2] && e[..2][..1] == e[..1] && e[..1][..0] == [];
    var d1 := Defined(e[..1]);
    assert d1 == if title.Some? then map["title" := Text(title.value)] else map[];
    var d2 := Defined(e[..2]);
    assert d2 == if summary.Some? then d1["summary" := Text(summary.value)] else d1;
    assert Defined(e) == if isDefault.Some? then d2["isDefault" := Flag(isDefault.value)] else d2;
  }

  /** The row with the record's fields written over it and `updatedAt` stamped. */
  function ApplyRecord(p: Portfolio, d: map<string, FieldValue>, now: Timestamp): (q: Portfolio)
    ensures q.id == p.id && q.userId == p.userId && q.createdAt == p.createdAt && q.updatedAt == now
    ensures "title" !in d ==> q.title == p.title
    ensures "summary" !in d ==> q.summary == p.summary
    ensures "isDefault" !in d ==> q.isDefault == p.isDefault
  {
    p.(title := if "title" in d && d["title"].Text? then d["title"].text else p.title,
       summary := if "summary" in d && d["summary"].Text? then Some(d["summary"].text) else p.summary,
       isDefault := if "isDefault" in d && d["isDefault"].Flag? then d["isDefault"].flag else p.isDefault,
       updatedAt := now)
  }

  /** The row `updatePortfolio` writes: each given field replaces the stored one, and `updatedAt` is stamped. */
  function UpdatedPortfolio(p: Portfolio, title: Option<string>, summary: Option<string>, isDefault: Option<bool>,
                            now: Timestamp): (q: Portfolio)
    ensures q.id == p.id && q.userId == p.userId && q.createdAt == p.createdAt && q.updatedAt == now
    ensures title.None? ==> q.title == p.title
    ensures summary.None? ==> q.summary == p.summary
    ensures isDefault.None? ==> q.isDefault == p.isDefault
  {
    p.(title := title.GetOr(p.title), summary := if summary.Some? then summary else p.summary,
       isDefault := isDefault.GetOr(p.isDefault), updatedAt := now)
  }

  /** Writing the collected record over a row is writing the given fields over it. */
  lemma RecordAppliesFields(p: Portfolio, title: Option<string>, summary: Option<string>, isDefault: Option<bool>,
                            now: Timestamp)
    ensures ApplyRecord(p, Defined(UpdateEntries(title, summary, isDefault)), now)
      == UpdatedPortfolio(p, title, summary, isDefault, now)
  {
    UpdateRecordFields(title, summary, isDefault);
  }

  /** The table after `updatePortfolio`'s reset, which happens only when the input asks for a default. */
  function ClearedFor(portfolios: map<Id, Portfolio>, userId: Id, isDefault: Option<bool>, now: Timestamp)
    : (r: map<Id, Portfolio>)
    ensures r.Keys == portfolios.Keys
    ensures isDefault != Some(true) ==> r == portfolios
  {
    if isDefault == Some(true) then ClearDefault(portfolios, userId, now) else portfolios
  }

  /** A user's work projects of one portfolio: `where portfolioId = id`. */
  function ProjectsOf(projects: map<Id, WorkProject>, portfolioId: Id): (r: map<Id, WorkProject>)
    ensures forall id :: id in r <==> id in projects && projects[id].portfolioId == portfolioId
    ensures forall id | id in r :: r[id] == projects[id]
  {
    map id | id in projects && projects[id].portfolioId == portfolioId :: projects[id]
  }

  /** The portfolio with that id and owner, else NOT_FOUND. */
  function OwnedPortfolio(portfolios: map<Id, Portfolio>, id: Id, userId: Id): (r: Result<Portfolio, Error>)
    ensures r.Ok? <==> id in portfolios && portfolios[id].userId == userId
    ensures r.Ok? ==> r.value == portfolios[id]
    ensures r.Err? ==> r.error == NotFound
  {
    if id in portfolios && portfolios[id].userId == userId then Ok(portfolios[id]) else Err(NotFound)
  }

  /** The fields of `saveProject`'s input other than the ids; None stands for a field not given. */
  datatype ProjectInput = ProjectInput(
    title: string, role: Option<string>, companyName: Option<string>,
    startDate: Option<Timestamp>, endDate: Option<Timestamp>, isCurrent: Option<bool>,
    description: Option<string>, skills: Option<string>, orderIndex: Option<int>)

  /** What the input schema accepts: a non-empty title and a non-negative order index. */
  predicate InputValid(input: ProjectInput) {
    input.title != "" && (input.orderIndex.Some? ==> input.orderIndex.value >= 0)
  }

  /** The inserted row: fields not given are empty, `isCurrent` defaults to false, both timestamps are now. */
  function NewWorkProject(id: Id, portfolioId: Id, input: ProjectInput, now: Timestamp): (p: WorkProject)
    ensures p.id == id && p.portfolioId == portfolioId && p.title == input.title
    ensures p.isCurrent == (input.isCurrent == Some(true))
    ensures p.createdAt == now && p.updatedAt == now
    ensures p.role == input.role && p.description == input.description && p.orderIndex == input.orderIndex
  {
    WorkProject(id, portfolioId, input.title, input.role, input.companyName, input.startDate, input.endDate,
      input.isCurrent.GetOr(false), input.description, input.skills, input.orderIndex, now, now)
  }

  /** A stored value, overwritten only by a given one (an `undefined` column is left out of the update). */
  function Given<T>(value: Option<T>, stored: Option<T>): Option<T> {
    if value.Some? then value else stored
  }

  /**
   * The rewritten row: title, portfolio and `isCurrent` (default false) are
   * always written, as are both timestamps (so `createdAt` is reset); other
   * fields only when given.
   */
  function RewrittenWorkProject(before: WorkProject, portfolioId: Id, input: ProjectInput, now: Timestamp)
    : (p: WorkProject)
    ensures p.id == before.id && p.portfolioId == portfolioId && p.title == input.title
    ensures p.isCurrent == (input.isCurrent == Some(true))
    ensures p.createdAt == now && p.updatedAt == now
    ensures input.role.None? ==> p.role == before.role
    ensures input.description.None? ==> p.description == before.description
    ensures input.orderIndex.None? ==> p.orderIndex == before.orderIndex
  {
    before.(portfolioId := portfolioId, title := input.title, role := Given(input.role, before.role),
      companyName := Given(input.companyName, before.companyName),
      startDate := Given(input.startDate, before.startDate), endDate := Given(input.endDate, before.endDate),
      isCurrent := input.isCurrent.GetOr(false), description := Given(input.description, before.description),
      skills := Given(input.skills, before.skills), orderIndex := Given(input.orderIndex, before.orderIndex),
      createdAt := now, updatedAt := now)
  }

  /** The portfolio and work-project tables. */
  class LegacyStore {
    var portfolios: map<Id, Portfolio>
    var projects: map<Id, WorkProject>

    ghost predicate Valid()
      reads this
    {
      PortfolioKeysMatch(portfolios) && WorkProjectKeysMatch(projects) && AtMostOneDefault(portfolios)
    }

    constructor ()
      ensures Valid() && portfolios == map[] && projects == map[]
    {
      portfolios := map[];
      projects := map[];
    }

    /**
     * `createPortfolio`: asking for a default first resets all the user's
     * portfolios; the row is then inserted under the given id or a fresh one.
     * A taken id makes the insert fail after the reset.
     */
    method CreatePortfolio(user: Option<User>, id: Option<Id>, title: string, summary: Option<string>,
                           isDefault: Option<bool>, freshId: Id, now: Timestamp)
      returns (r: Result<Portfolio, Error>)
      requires Valid()
      requires freshId !in portfolios
      modifies this
      ensures Valid() && projects == old(projects)
      ensures title == "" ==> r == Err(BadRequest) && portfolios == old(portfolios)
      ensures title != "" && user.None? ==> r == Err(Unauthorized) && portfolios == old(portfolios)
      ensures (title != "" && user.Some? ==>
        var reset := if isDefault == Some(true) then ResetDefaults(old(portfolios), user.value.id, now) else old(portfolios);
        var key := id.GetOr(freshId);
        (key in old(portfolios) ==> r == Err(InsertFailed) && portfolios == reset)
        && (key !in old(portfolios) ==>
          r == Ok(Portfolio(key, user.value.id, title, summary, isDefault.GetOr(false), now, now))
          && portfolios == reset[key := r.value]))
    {
      if title == "" {
        return Err(BadRequest);
      }
      if user.None? {
        return Err(Unauthorized);
      }
      var u := user.value;
      if isDefault == Some(true) {
        ResetsLeaveNoDefault(portfolios, u.id, now);
        portfolios := ResetDefaults(portfolios, u.id, now);
      }
      var key := id.GetOr(freshId);
      if key in portfolios {
        return Err(InsertFailed);
      }
      var p := Portfolio(key, u.id, title, summary, isDefault.GetOr(false), now, now);
      PutKeepsOneDefault(portfolios, p);
      portfolios := portfolios[key := p];
      r := Ok(p);
    }

    /**
     * `updatePortfolio`: writes the given fields over an owned portfolio.
     * Asking for the default first clears the user's current one; with no
     * field given the stored row is returned and nothing is written.
     */
    method UpdatePortfolio(user: Option<User>, id: Id, title: Option<string>, summary: Option<string>,
                           isDefault: Option<bool>, now: Timestamp)
      returns (r: Result<Portfolio, Error>)
      requires Valid()
      modifies this
      ensures Valid() && projects == old(projects)
      ensures title == Some("") ==> r == Err(BadRequest)
      ensures title != Some("") && user.None? ==> r == Err(Unauthorized)
      ensures (title != Some("") && user.Some? ==>
        r.Err? == OwnedPortfolio(old(portfolios), id, user.value.id).Err?)
      ensures title != Some("") && user.Some? && r.Err? ==> r.error == NotFound
      ensures r.Err? ==> portfolios == old(portfolios)
      ensures (r.Ok? && title.None? && summary.None? && isDefault.None? ==>
        r.value == old(portfolios)[id] && portfolios == old(portfolios))
      ensures (r.Ok? && !(title.None? && summary.None? && isDefault.None?) ==>
        var cleared := ClearedFor(old(portfolios), user.value.id, isDefault, now);
        r.value == UpdatedPortfolio(cleared[id], title, summary, isDefault, now)
        && portfolios == cleared[id := r.value])
    {
      if title == Some("") {
        return Err(BadRequest);
      }
      if user.None? {
        return Err(Unauthorized);
      }
      var u := user.value;
      var found := OwnedPortfolio(portfolios, id, u.id);
      if found.Err? {
        return Err(found.error);
      }
      var existing := found.value;
      var updateData := CollectDefined(UpdateEntries(title, summary, isDefault));
      UpdateRecordFields(title, summary, isDefault);
      if isDefault == Some(true) {
        ClearUserDefault(u.id, now);
      }
      if |updateData| == 0 {
        return Ok(existing);
      }
      var p := ApplyRecord(portfolios[id], updateData, now);
      RecordAppliesFields(portfolios[id], title, summary, isDefault, now);
      PutPortfolio(p);
      r := Ok(p);
    }

    /** The `update ... set isDefault = false` statement for the user's current default. */
    method ClearUserDefault(userId: Id, now: Timestamp)
      requires Valid()
      modifies this
      ensures Valid() && projects == old(projects)
      ensures portfolios == ClearDefault(old(portfolios), userId, now)
      ensures forall id | id in portfolios && portfolios[id].userId == userId :: !portfolios[id].isDefault
    {
      ResetsLeaveNoDefault(portfolios, userId, now);
      portfolios := ClearDefault(portfolios, userId, now);
    }

    /** Writes one row back; a default row is allowed only when the user has no other default. */
    method PutPortfolio(p: Portfolio)
      requires Valid()
      requires (p.isDefault ==>
        forall id | id in portfolios && id != p.id :: portfolios[id].userId == p.userId ==> !portfolios[id].isDefault)
      modifies this
      ensures Valid() && projects == old(projects)
      ensures portfolios == old(portfolios)[p.id := p]
    {
      PutKeepsOneDefault(portfolios, p);
      portfolios := portfolios[p.id := p];
    }

    /** `deletePortfolio`: removes the portfolio when the caller owns it (its work projects stay). */
    method DeletePortfolio(user: Option<User>, id: Id) returns (r: Result<Portfolio, Error>)
      requires Valid()
      modifies this
      ensures Valid() && projects == old(projects)
      ensures user.None? ==> r == Err(Unauthorized)
      ensures user.Some? ==> r == OwnedPortfolio(old(portfolios), id, user.value.id)
      ensures r.Ok? ==> portfolios == old(portfolios) - {id}
      ensures r.Err? ==> portfolios == old(portfolios)
    {
      if user.None? {
        return Err(Unauthorized);
      }
      r := OwnedPortfolio(portfolios, id, user.value.id);
      if r.Ok? {
        portfolios := portfolios - {id};
      }
    }

    /**
     * `saveProject`: inserts a work project into an owned portfolio, or,
     * given an id, rewrites that project when it belongs to the portfolio.
     */
    method SaveProject(user: Option<User>, id: Option<Id>, portfolioId: Id, input: ProjectInput,
                       freshId: Id, now: Timestamp)
      returns (r: Result<WorkProject, Error>)
      requires Valid()
      requires freshId !in projects
      modifies this
      ensures Valid() && portfolios == old(portfolios)
      ensures r.Err? ==> projects == old(projects)
      ensures !InputValid(input) ==> r == Err(BadRequest)
      ensures InputValid(input) && user.None? ==> r == Err(Unauthorized)
      ensures (InputValid(input) && user.Some? && OwnedPortfolio(old(portfolios), portfolioId, user.value.id).Err?
        ==> r == Err(NotFound))
      ensures (InputValid(input) && user.Some? && OwnedPortfolio(old(portfolios), portfolioId, user.value.id).Ok?
        && !(id.Some? && id.value != "")
        ==> r == Ok(NewWorkProject(freshId, portfolioId, input, now)) && projects == old(projects)[freshId := r.value])
      ensures (InputValid(input) && user.Some? && OwnedPortfolio(old(portfolios), portfolioId, user.value.id).Ok?
        && id.Some? && id.value != ""
        ==> (r.Ok? <==> id.value in old(projects) && old(projects)[id.value].portfolioId == portfolioId)
            && (r.Err? ==> r.error == NotFound))
      ensures (r.Ok? && id.Some? && id.value != "" ==>
        r.value == RewrittenWorkProject(old(projects)[id.value], portfolioId, input, now)
        && projects == old(projects)[id.value := r.value])
    {
      if !InputValid(input) {
        return Err(BadRequest);
      }
      if user.None? {
        return Err(Unauthorized);
      }
      var found := OwnedPortfolio(portfolios, portfolioId, user.value.id);
      if found.Err? {
        return Err(NotFound);
      }
      if id.Some? && id.value != "" {
        if id.value !in projects || projects[id.value].portfolioId != portfolioId {
          return Err(NotFound);
        }
        var p := RewrittenWorkProject(projects[id.value], portfolioId, input, now);
        projects := projects[id.value := p];
        return Ok(p);
      }
      var p := NewWorkProject(freshId, portfolioId, input, now);
      projects := projects[freshId := p];
      r := Ok(p);
    }

    /** `deleteProject`: removes a work project of an owned portfolio; it must belong to that portfolio. */
    method DeleteProject(user: Option<User>, id: Id, portfolioId: Id) returns (r: Result<WorkProject, Error>)
      requires Valid()
      modifies this
      ensures Valid() && portfolios == old(portfolios)
      ensures user.None? ==> r == Err(Unauthorized)
      ensures (user.Some? ==> (r.Ok? <==> (OwnedPortfolio(old(portfolios), portfolioId, user.value.id).Ok?
        && id in old(projects) && old(projects)[id].portfolioId == portfolioId)))
      ensures user.Some? && r.Err? ==> r.error == NotFound
      ensures r.Ok? ==> r.value == old(projects)[id] && projects == old(projects) - {id}
      ensures r.Err? ==> projects == old(projects)
    {
      if user.None? {
        return Err(Unauthorized);
      }
      var found := OwnedPortfolio(portfolios, portfolioId, user.value.id);
      if found.Err? {
        return Err(NotFound);
      }
      if id !in projects || projects[id].portfolioId != portfolioId {
        return Err(NotFound);
      }
      r := Ok(projects[id]);
      projects := projects - {id};
    }

    /** `getPortfolioWithProjects`: an owned portfolio together with its work projects. */
    method GetPortfolioWithProjects(user: Option<User>, id: Id)
      returns (r: Result<(Portfolio, map<Id, WorkProject>), Error>)
      ensures user.None? ==> r == Err(Unauthorized)
      ensures user.Some? ==> r.Err? == OwnedPortfolio(portfolios, id, user.value.id).Err?
      ensures user.Some? && r.Err? ==> r.error == NotFound
      ensures r.Ok? ==> r.value.0 == portfolios[id] && r.value.1 == ProjectsOf(projects, id)
    {
      if user.None? {
        return Err(Unauthorized);
      }
      var found := OwnedPortfolio(portfolios, id, user.value.id);
      if found.Err? {
        return Err(found.error);
      }
      r := Ok((found.value, ProjectsOf(projects, id)));
    }
  }
}

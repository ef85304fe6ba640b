// Agents, their version snapshots, and the join table that mirrors their tool ids
// (api_gateway/routes/agents.py and routes/tools.py).
//
// `Apply` is the effect of one committed or rolled back request on the tables; the methods of
// AgentStore do the same steps on mutable tables and are proved to compute it.
module AgentTools {
  import opened Common

  type WorkspaceId = nat
  type AgentId = nat
  type ToolId = nat

  // UUID(text) and str(uuid).
  datatype Uuids = Uuids(parse: string -> Option<ToolId>, show: ToolId -> string)

  ghost predicate Lawful(u: Uuids) {
    forall t: ToolId :: u.parse(u.show(t)) == Some(t)
  }

  // `profile` stands for the fields that play no part here.
  datatype Agent = Agent(workspace: WorkspaceId, slug: string, profile: Json, toolIds: seq<string>, version: nat)

  datatype VersionRow = VersionRow(agent: AgentId, number: nat, snapshot: Agent, notes: Option<string>)

  // A tool without a workspace is global.
  datatype Db = Db(
    agents: map<AgentId, Agent>,
    tools: map<ToolId, Option<WorkspaceId>>,
    bindings: set<(AgentId, ToolId)>,
    versions: seq<VersionRow>)

  // The body of an update: `toolIds` is missing, null, or a list.
  datatype Patch = Patch(profile: Option<Json>, toolIds: Option<Option<seq<string>>>)

  // `accepted` is the outcome of the checks made before anything is written.
  datatype Op =
    | Create(workspace: WorkspaceId, id: AgentId, slug: string, profile: Json, toolIds: seq<string>, accepted: bool)
    | Update(workspace: WorkspaceId, id: AgentId, patch: Patch, accepted: bool)
    | Publish(workspace: WorkspaceId, id: AgentId, notes: string)
    | Bind(workspace: WorkspaceId, id: AgentId, tool: ToolId)
    | Unbind(workspace: WorkspaceId, id: AgentId, tool: ToolId)
    | DeleteAgent(workspace: WorkspaceId, id: AgentId)
    | CreateTool(tool: ToolId, owner: Option<WorkspaceId>)
    | DeleteTool(workspace: WorkspaceId, tool: ToolId)

  // ----- One request -----

  // The tools a list of texts names; what does not parse is passed over.
  function Parsed(u: Uuids, ids: seq<string>): set<ToolId> {
    set x <- ids | u.parse(x).Some? :: u.parse(x).value
  }

  function Rows(a: AgentId, tools: set<ToolId>): set<(AgentId, ToolId)> {
    set t <- tools :: (a, t)
  }

  function BoundTo(bindings: set<(AgentId, ToolId)>, a: AgentId): set<ToolId> {
    set b <- bindings | b.0 == a :: b.1
  }

  // The rows once those of `a` are made to match its list; None when a new row names no tool.
  function Synced(u: Uuids, db: Db, a: AgentId, ids: seq<string>): Option<set<(AgentId, ToolId)>> {
    var desired := Parsed(u, ids);
    if desired - BoundTo(db.bindings, a) <= db.tools.Keys then
      Some((set b <- db.bindings | b.0 != a || b.1 in desired) + Rows(a, desired))
    else None
  }

  // Writes the agent and the snapshot of its version; a failed synchronisation rolls everything back.
  function Revised(u: Uuids, db: Db, a: AgentId, agent: Agent, sync: bool, notes: Option<string>): Db {
    var rows := if sync then Synced(u, db, a, agent.toolIds) else Some(db.bindings);
    match rows
    case None => db
    case Some(bindings) =>
      db.(agents := db.agents[a := agent], bindings := bindings,
          versions := db.versions + [VersionRow(a, agent.version, agent, notes)])
  }

  predicate Owned(db: Db, w: WorkspaceId, a: AgentId) {
    a in db.agents && db.agents[a].workspace == w
  }

  predicate SlugTaken(db: Db, w: WorkspaceId, slug: string) {
    exists a <- db.agents :: db.agents[a].workspace == w && db.agents[a].slug == slug
  }

  function Bumped(agent: Agent, ids: seq<string>): Agent {
    agent.(toolIds := ids, version := agent.version + 1)
  }

  function Drop(ids: seq<string>, gone: string): seq<string> {
    if ids == [] then []
    else Drop(ids[..|ids| - 1], gone) + if ids[|ids| - 1] == gone then [] else [ids[|ids| - 1]]
  }

  function With(ids: seq<string>, added: string): seq<string> {
    if added in ids then ids else ids + [added]
  }

  function Patched(agent: Agent, p: Patch): Agent {
    Bumped(agent, p.toolIds.GetOr(None).GetOr(agent.toolIds)).(profile := p.profile.GetOr(agent.profile))
  }

  function Notes(text: string): Option<string> {
    if text == "" then None else Some(Take(text, 4096))
  }

  function Without(versions: seq<VersionRow>, a: AgentId): seq<VersionRow> {
    if versions == [] then []
    else
      var last := versions[|versions| - 1];
      Without(versions[..|versions| - 1], a) + if last.agent == a then [] else [last]
  }

  // An agent of the workspace without the printed id in its list.
  function Trimmed(u: Uuids, agent: Agent, w: WorkspaceId, t: ToolId): Agent {
    if agent.workspace == w then agent.(toolIds := Drop(agent.toolIds, u.show(t))) else agent
  }

  function Pruned(u: Uuids, db: Db, w: WorkspaceId, t: ToolId): map<AgentId, Agent> {
    map a <- db.agents :: Trimmed(u, db.agents[a], w, t)
  }

  function Apply(u: Uuids, db: Db, op: Op): Db {
    match op
    case Create(w, a, slug, profile, ids, accepted) =>
      if !accepted || a in db.agents || SlugTaken(db, w, slug) then db
      else Revised(u, db, a, Agent(w, slug, profile, ids, 1), true, None)
    case Update(w, a, patch, accepted) =>
      if !Owned(db, w, a) || !accepted then db
      else Revised(u, db, a, Patched(db.agents[a], patch), patch.toolIds.Some?, None)
    case Publish(w, a, notes) =>
      if !Owned(db, w, a) then db
      else Revised(u, db, a, Bumped(db.agents[a], db.agents[a].toolIds), false, Notes(notes))
    case Bind(w, a, t) =>
      if !Owned(db, w, a) then db
      else Revised(u, db, a, Bumped(db.agents[a], With(db.agents[a].toolIds, u.show(t))), true, None)
    case Unbind(w, a, t) =>
      if !Owned(db, w, a) || u.show(t) !in db.agents[a].toolIds then db
      else Revised(u, db, a, Bumped(db.agents[a], Drop(db.agents[a].toolIds, u.show(t))), true, None)
    case DeleteAgent(w, a) =>
      if !Owned(db, w, a) then db
      else db.(agents := db.agents - {a}, bindings := (set b <- db.bindings | b.0 != a),
               versions := Without(db.versions, a))
    case CreateTool(t, owner) =>
      if t in db.tools then db else db.(tools := db.tools[t := owner])
    case DeleteTool(w, t) =>
      // The tool service deletes the tool, and its rows with it, whatever workspace asks.
      if t !in db.tools then db
      else db.(tools := db.tools - {t}, bindings := (set b <- db.bindings | b.1 != t), agents := Pruned(u, db, w, t))
  }

  // ----- The tables as the handlers change them -----

  // The answer to a request; MissingTool is a foreign key that fails when the request commits.
  datatype Reply = Ok | NotFound | Conflict | Rejected | MissingTool

  class AgentStore {
    const u: Uuids
    var agents: map<AgentId, Agent>
    var tools: map<ToolId, Option<WorkspaceId>>
    var bindings: set<(AgentId, ToolId)>
    var versions: seq<VersionRow>

    function State(): Db
      reads this
    {
      Db(agents, tools, bindings, versions)
    }

    constructor (u: Uuids)
      ensures this.u == u && State() == Db(map[], map[], {}, [])
    {
      this.u := u;
      agents, tools, bindings, versions := map[], map[], {}, [];
    }

    // `_sync_tool_bindings`, up to the flush: the rows it leaves, unless a new one names no tool.
    method SyncToolBindings(a: AgentId, ids: seq<string>) returns (rows: Option<set<(AgentId, ToolId)>>)
      ensures rows == Synced(u, State(), a, ids)
    {
      var desired: set<ToolId> := {};
      for i := 0 to |ids|
        invariant desired == Parsed(u, ids[..i])
      {
        ParsedSnoc(u, ids[..i], ids[i]);
        assert ids[..i + 1] == ids[..i] + [ids[i]];
        var parsed := u.parse(ids[i]);
        if parsed.None? {
          continue;
        }
        desired := desired + {parsed.value};
      }
      assert ids[..|ids|] == ids;
      hide Parsed;
      var existing := BoundTo(bindings, a);
      var left := bindings;
      var missing := desired - existing;
      if !(missing <= tools.Keys) {
        return None;
      }
      var toAdd := missing;
      while toAdd != {}
        invariant toAdd <= missing
        invariant left == bindings + Rows(a, missing - toAdd)
      {
        var t :| t in toAdd;
        left := left + {(a, t)};
        assert missing - (toAdd - {t}) == (missing - toAdd) + {t};
        toAdd := toAdd - {t};
      }
      var toDrop := existing - desired;
      assert toAdd == {} && missing - toAdd == missing;
      while toDrop != {}
        invariant toDrop <= existing - desired
        invariant left == bindings + Rows(a, missing) - Rows(a, (existing - desired) - toDrop)
      {
        var t :| t in toDrop;
        left := left - {(a, t)};
        assert (existing - desired) - (toDrop - {t}) == ((existing - desired) - toDrop) + {t};
        toDrop := toDrop - {t};
      }
      assert (existing - desired) - toDrop == existing - desired;
      SyncedRows(bindings, a, desired);
      return Some(left);
    }

    // Assigns the agent, synchronises if asked, adds the snapshot; or rolls everything back.
    method Commit(a: AgentId, agent: Agent, sync: bool, notes: Option<string>) returns (ok: bool)
      modifies this
      ensures State() == Revised(u, old(State()), a, agent, sync, notes)
      ensures ok <==> (sync ==> Synced(u, old(State()), a, agent.toolIds).Some?)
    {
      hide Synced;
      if sync {
        var rows := SyncToolBindings(a, agent.toolIds);
        if rows == None {
          return false;
        }
        bindings := rows.value;
      }
      agents := agents[a := agent];
      versions := versions + [VersionRow(a, agent.version, agent, notes)];
      return true;
    }

    method CreateAgent(w: WorkspaceId, a: AgentId, slug: string, profile: Json, ids: seq<string>, accepted: bool)
        returns (r: Reply)
      modifies this
      ensures State() == Apply(u, old(State()), Create(w, a, slug, profile, ids, accepted))
      ensures r == if !accepted then Rejected
                   else if a in old(agents) || SlugTaken(old(State()), w, slug) then Conflict
                   else if Synced(u, old(State()), a, ids) == None then MissingTool else Ok
    {
      hide Synced;
      if !accepted {
        return Rejected;
      }
      if a in agents || SlugTaken(State(), w, slug) {
        return Conflict;
      }
      var ok := Commit(a, Agent(w, slug, profile, ids, 1), true, None);
      return if ok then Ok else MissingTool;
    }

    method UpdateAgent(w: WorkspaceId, a: AgentId, patch: Patch, accepted: bool) returns (r: Reply)
      modifies this
      ensures State() == Apply(u, old(State()), Update(w, a, patch, accepted))
      ensures r == if !Owned(old(State()), w, a) then NotFound
                   else if !accepted then Rejected
                   else if State() == old(State()) then MissingTool else Ok
    {
      hide Synced;
      if a !in agents || agents[a].workspace != w {
        return NotFound;
      }
      if !accepted {
        return Rejected;
      }
      var agent := agents[a];
      if patch.profile.Some? {
        agent := agent.(profile := patch.profile.value);
      }
      if patch.toolIds.Some? && patch.toolIds.value.Some? {
        agent := agent.(toolIds := patch.toolIds.value.value);
      }
      agent := agent.(version := agent.version + 1);
      var ok := Commit(a, agent, patch.toolIds.Some?, None);
      return if ok then Ok else MissingTool;
    }

    method PublishVersion(w: WorkspaceId, a: AgentId, notes: string) returns (r: Reply)
      modifies this
      ensures State() == Apply(u, old(State()), Publish(w, a, notes))
      ensures r == if Owned(old(State()), w, a) then Ok else NotFound
    {
      if a !in agents || agents[a].workspace != w {
        return NotFound;
      }
      var ok := Commit(a, agents[a].(version := agents[a].version + 1), false, Notes(notes));
      return Ok;
    }

    method BindTool(w: WorkspaceId, a: AgentId, t: ToolId) returns (r: Reply)
      modifies this
      ensures State() == Apply(u, old(State()), Bind(w, a, t))
      ensures r == if !Owned(old(State()), w, a) || State() == old(State()) then NotFound else Ok
    {
      hide Synced;
      if a !in agents || agents[a].workspace != w {
        return NotFound;
      }
      var ids := agents[a].toolIds;
      if u.show(t) !in ids {
        ids := ids + [u.show(t)];
      }
      var ok := Commit(a, agents[a].(toolIds := ids, version := agents[a].version + 1), true, None);
      return if ok then Ok else NotFound;
    }

    method UnbindTool(w: WorkspaceId, a: AgentId, t: ToolId) returns (r: Reply)
      modifies this
      ensures State() == Apply(u, old(State()), Unbind(w, a, t))
      ensures r == if !Owned(old(State()), w, a) || u.show(t) !in old(agents)[a].toolIds then NotFound
                   else if State() == old(State()) then MissingTool else Ok
    {
      hide Synced;
      if a !in agents || agents[a].workspace != w || u.show(t) !in agents[a].toolIds {
        return NotFound;
      }
      var agent := Bumped(agents[a], Drop(agents[a].toolIds, u.show(t)));
      var ok := Commit(a, agent, true, None);
      return if ok then Ok else MissingTool;
    }

    // The rows and snapshots of the agent go with it.
    method RemoveAgent(w: WorkspaceId, a: AgentId) returns (r: Reply)
      modifies this
      ensures State() == Apply(u, old(State()), DeleteAgent(w, a))
      ensures r == if Owned(old(State()), w, a) then Ok else NotFound
    {
      if a !in agents || agents[a].workspace != w {
        return NotFound;
      }
      agents := agents - {a};
      bindings := set b <- bindings | b.0 != a;
      versions := Without(versions, a);
      return Ok;
    }

    // The tool service deletes the tool and its rows; then the lists of the workspace are pruned.
    method RemoveTool(w: WorkspaceId, t: ToolId) returns (r: Reply, pruned: set<AgentId>)
      modifies this
      ensures State() == Apply(u, old(State()), DeleteTool(w, t))
      ensures r == if t in old(tools) then Ok else NotFound
      ensures pruned == if t !in old(tools) then {} else
        set a <- old(agents) | old(agents)[a].workspace == w && u.show(t) in old(agents)[a].toolIds
    {
      if t !in tools {
        return NotFound, {};
      }
      tools := tools - {t};
      bindings := set b <- bindings | b.1 != t;
      hide Trimmed;
      pruned := PruneLists(w, t);
      return Ok, pruned;
    }

    method PruneLists(w: WorkspaceId, t: ToolId) returns (pruned: set<AgentId>)
      modifies this`agents
      ensures agents == Pruned(u, old(State()), w, t)
      ensures pruned == set a <- old(agents) | old(agents)[a].workspace == w && u.show(t) in old(agents)[a].toolIds
    {
      hide Drop;
      ghost var was := agents;
      var affected := set a <- agents | agents[a].workspace == w;
      pruned := {};
      while affected != {}
        invariant affected <= was.Keys && forall a <- affected :: was[a].workspace == w
        invariant agents == map a <- was :: if a in affected then was[a] else Trimmed(u, was[a], w, t)
        invariant pruned == set a <- was | was[a].workspace == w && a !in affected && u.show(t) in was[a].toolIds
      {
        var a :| a in affected;
        DropMeans(agents[a].toolIds, u.show(t));
        if u.show(t) in agents[a].toolIds {
          agents := agents[a := agents[a].(toolIds := Drop(agents[a].toolIds, u.show(t)))];
          pruned := pruned + {a};
        }
        affected := affected - {a};
      }
    }
  }

  lemma ParsedSnoc(u: Uuids, ids: seq<string>, x: string)
    ensures Parsed(u, ids + [x]) == Parsed(u, ids) + if u.parse(x).Some? then {u.parse(x).value} else {}
  {}

  lemma SyncedRows(bindings: set<(AgentId, ToolId)>, a: AgentId, desired: set<ToolId>)
    ensures
      var existing := BoundTo(bindings, a);
      bindings + Rows(a, desired - existing) - Rows(a, existing - desired)
      == (set b <- bindings | b.0 != a || b.1 in desired) + Rows(a, desired)
  {
    var existing := BoundTo(bindings, a);
    forall b
      ensures b in bindings + Rows(a, desired - existing) - Rows(a, existing - desired)
         <==> b in (set b <- bindings | b.0 != a || b.1 in desired) + Rows(a, desired)
    {
      assert b.0 == a ==> (b in bindings <==> b.1 in existing);
    }
  }

  // ----- What every request keeps -----

  // The snapshots of an agent, oldest first.
  function VersionsOf(versions: seq<VersionRow>, a: AgentId): seq<VersionRow> {
    if versions == [] then []
    else
      var last := versions[|versions| - 1];
      VersionsOf(versions[..|versions| - 1], a) + if last.agent == a then [last] else []
  }

  // Versions 1 to n, once each, in order.
  predicate Numbered(rows: seq<VersionRow>, n: nat) {
    |rows| == n && forall i :: 0 <= i < n ==> rows[i].number == i + 1
  }

  ghost predicate VersionsFit(db: Db) {
    forall a :: Numbered(VersionsOf(db.versions, a), if a in db.agents then db.agents[a].version else 0)
  }

  predicate References(db: Db) {
    forall b <- db.bindings :: b.0 in db.agents && b.1 in db.tools
  }

  predicate SlugsAreUnique(db: Db) {
    forall a, b :: a in db.agents && b in db.agents && a != b && db.agents[a].workspace == db.agents[b].workspace ==>
      db.agents[a].slug != db.agents[b].slug
  }

  // Every agent's rows are exactly the tools its list names.
  ghost predicate Mirror(u: Uuids, db: Db) {
    && (forall b <- db.bindings :: b.0 in db.agents)
    && forall a <- db.agents :: BoundTo(db.bindings, a) == Parsed(u, db.agents[a].toolIds)
  }

  ghost predicate Sane(db: Db) {
    VersionsFit(db) && References(db) && SlugsAreUnique(db)
  }

  lemma VersionsSnoc(versions: seq<VersionRow>, row: VersionRow, a: AgentId)
    ensures VersionsOf(versions + [row], a) == VersionsOf(versions, a) + if row.agent == a then [row] else []
    ensures Without(versions + [row], a) == Without(versions, a) + if row.agent == a then [] else [row]
  {
    assert (versions + [row])[..|versions|] == versions;
  }

  lemma {:induction false} VersionsWithout(versions: seq<VersionRow>, gone: AgentId, a: AgentId)
    ensures VersionsOf(Without(versions, gone), a) == if a == gone then [] else VersionsOf(versions, a)
  {
    if versions != [] {
      var last := versions[|versions| - 1];
      VersionsWithout(versions[..|versions| - 1], gone, a);
      if last.agent == gone {
        assert Without(versions, gone) == Without(versions[..|versions| - 1], gone);
      } else {
        VersionsSnoc(Without(versions[..|versions| - 1], gone), last, a);
      }
    }
  }

  lemma SyncMeans(u: Uuids, db: Db, a: AgentId, ids: seq<string>)
    requires Synced(u, db, a, ids).Some?
    ensures
      var rows := Synced(u, db, a, ids).value;
      && BoundTo(rows, a) == Parsed(u, ids)
      && (forall b :: b !in {a} ==> BoundTo(rows, b) == BoundTo(db.bindings, b))
      && (forall r <- rows :: r.0 == a || r in db.bindings)
      && (forall r <- rows :: r in db.bindings || r.1 in db.tools)
  {
    var rows := Synced(u, db, a, ids).value;
    var desired := Parsed(u, ids);
    hide Parsed;
    forall t ensures t in BoundTo(rows, a) <==> t in desired {
      if t in desired {
        assert (a, t) in rows;
      }
    }
    forall b | b != a ensures BoundTo(rows, b) == BoundTo(db.bindings, b) {
      forall t ensures t in BoundTo(rows, b) <==> t in BoundTo(db.bindings, b) {
        assert (b, t) in rows <==> (b, t) in db.bindings;
      }
    }
    forall r | r in rows && r !in db.bindings ensures r.1 in db.tools {
      assert r.1 in desired && r.1 !in BoundTo(db.bindings, a);
    }
  }

  // What every request makes of the snapshots of an agent: at most one more.
  lemma RevisedKeeps(u: Uuids, db: Db, a: AgentId, agent: Agent, sync: bool, notes: Option<string>)
    requires Sane(db)
    requires agent.version == (if a in db.agents then db.agents[a].version else 0) + 1
    requires if a in db.agents then db.agents[a].workspace == agent.workspace && db.agents[a].slug == agent.slug
             else sync && !SlugTaken(db, agent.workspace, agent.slug)
    ensures Sane(Revised(u, db, a, agent, sync, notes))
    ensures forall b :: VersionsOf(db.versions, b) <= VersionsOf(Revised(u, db, a, agent, sync, notes).versions, b)
  {
    hide Synced, VersionsOf, Numbered, Parsed;
    var db1 := Revised(u, db, a, agent, sync, notes);
    if sync && Synced(u, db, a, agent.toolIds).Some? {
      SyncMeans(u, db, a, agent.toolIds);
    }
    var row := VersionRow(a, agent.version, agent, notes);
    forall b
      ensures VersionsOf(db.versions, b) <= VersionsOf(db.versions + [row], b)
      ensures Numbered(VersionsOf(db.versions + [row], b),
                       if b == a then agent.version else if b in db.agents then db.agents[b].version else 0)
    {
      VersionsSnoc(db.versions, row, b);
      NumberedSnoc(VersionsOf(db.versions, b), if b in db.agents then db.agents[b].version else 0, row);
    }
  }

  lemma NumberedSnoc(rows: seq<VersionRow>, n: nat, row: VersionRow)
    requires Numbered(rows, n)
    ensures row.number == n + 1 ==> Numbered(rows + [row], n + 1)
    ensures Numbered(rows + [], n) && rows <= rows + []
  {
    assert rows + [] == rows;
  }

  // Every request leaves the tables sane: versions 1 to the current one once each, no dangling row,
  // no slug twice.
  lemma ApplyKeepsSane(u: Uuids, db: Db, op: Op)
    requires Sane(db)
    ensures Sane(Apply(u, db, op))
  {
    hide Revised, VersionsOf, Numbered, Drop, Without, Parsed;
    match op
    case Create(w, a, slug, profile, ids, accepted) =>
      if accepted && a !in db.agents && !SlugTaken(db, w, slug) {
        RevisedKeeps(u, db, a, Agent(w, slug, profile, ids, 1), true, None);
      }
    case Update(w, a, patch, accepted) =>
      if Owned(db, w, a) && accepted {
        RevisedKeeps(u, db, a, Patched(db.agents[a], patch), patch.toolIds.Some?, None);
      }
    case Publish(w, a, notes) =>
      if Owned(db, w, a) {
        RevisedKeeps(u, db, a, Bumped(db.agents[a], db.agents[a].toolIds), false, Notes(notes));
      }
    case Bind(w, a, t) =>
      if Owned(db, w, a) {
        RevisedKeeps(u, db, a, Bumped(db.agents[a], With(db.agents[a].toolIds, u.show(t))), true, None);
      }
    case Unbind(w, a, t) =>
      if Owned(db, w, a) {
        RevisedKeeps(u, db, a, Bumped(db.agents[a], Drop(db.agents[a].toolIds, u.show(t))), true, None);
      }
    case DeleteAgent(w, a) =>
      forall b ensures VersionsOf(Without(db.versions, a), b) == if b == a then [] else VersionsOf(db.versions, b) {
        VersionsWithout(db.versions, a, b);
      }
      NoRows();
    case CreateTool(t, owner) =>
    case DeleteTool(w, t) =>
  }

  lemma NoRows()
    ensures Numbered([], 0)
  {}

  // Snapshots are immutable: a request only adds to an agent's list, unless it deletes the agent.
  lemma EarlierSnapshotsStay(u: Uuids, db: Db, op: Op, a: AgentId)
    requires Sane(db) && !(op.DeleteAgent? && op.id == a)
    ensures VersionsOf(db.versions, a) <= VersionsOf(Apply(u, db, op).versions, a)
  {
    hide Sane, VersionsOf, Drop, Without, Parsed, Synced;
    match op
    case DeleteAgent(w, b) => VersionsWithout(db.versions, b, a);
    case CreateTool(_, _) =>
    case DeleteTool(_, _) =>
    case _ =>
      var db1 := Apply(u, db, op);
      if db1.versions != db.versions {
        VersionsSnoc(db.versions, db1.versions[|db.versions|], a);
      }
  }

  // The newest snapshot of every agent shows the agent as it is.
  ghost predicate SnapshotsCurrent(db: Db) {
    forall a <- db.agents ::
      var rows := VersionsOf(db.versions, a);
      rows != [] && rows[|rows| - 1].snapshot == db.agents[a]
  }

  lemma RevisedIsCurrent(u: Uuids, db: Db, a: AgentId, agent: Agent, sync: bool, notes: Option<string>)
    requires SnapshotsCurrent(db)
    ensures SnapshotsCurrent(Revised(u, db, a, agent, sync, notes))
  {
    hide VersionsOf, Synced;
    var row := VersionRow(a, agent.version, agent, notes);
    forall b {
      VersionsSnoc(db.versions, row, b);
    }
  }

  // Deleting a tool edits lists without a new version: it is the one request that leaves a snapshot
  // behind, and it does so exactly when an agent of the workspace lists the tool.
  lemma SnapshotsKept(u: Uuids, db: Db, op: Op)
    requires Sane(db) && SnapshotsCurrent(db)
    ensures SnapshotsCurrent(Apply(u, db, op)) <==>
      !(op.DeleteTool? && op.tool in db.tools
        && exists a <- db.agents :: db.agents[a].workspace == op.workspace && u.show(op.tool) in db.agents[a].toolIds)
  {
    hide VersionsOf, Revised, Sane, Without, Drop;
    match op
    case Create(w, a, slug, profile, ids, accepted) =>
      RevisedIsCurrent(u, db, a, Agent(w, slug, profile, ids, 1), true, None);
    case DeleteAgent(w, a) =>
      forall b {
        VersionsWithout(db.versions, a, b);
      }
    case CreateTool(_, _) =>
    case DeleteTool(w, t) =>
      forall a | a in db.agents
        ensures Drop(db.agents[a].toolIds, u.show(t)) == db.agents[a].toolIds <==> u.show(t) !in db.agents[a].toolIds
      {
        DropMeans(db.agents[a].toolIds, u.show(t));
      }
      if t in db.tools {
        assert Apply(u, db, op).agents.Keys == db.agents.Keys;
      }
    case _ =>
      if Owned(db, op.workspace, op.id) {
        var agent := db.agents[op.id];
        match op
        case Update(_, a, p, _) => RevisedIsCurrent(u, db, a, Patched(agent, p), p.toolIds.Some?, None);
        case Publish(_, a, notes) => RevisedIsCurrent(u, db, a, Bumped(agent, agent.toolIds), false, Notes(notes));
        case Bind(_, a, t) => RevisedIsCurrent(u, db, a, Bumped(agent, With(agent.toolIds, u.show(t))), true, None);
        case Unbind(_, a, t) => RevisedIsCurrent(u, db, a, Bumped(agent, Drop(agent.toolIds, u.show(t))), true, None);
        case _ =>
      }
  }

  lemma {:induction false} DropMeans(ids: seq<string>, gone: string)
    ensures forall x :: x in Drop(ids, gone) <==> x in ids && x != gone
    ensures Drop(ids, gone) == ids <==> gone !in ids
  {
    if ids != [] {
      DropMeans(ids[..|ids| - 1], gone);
      assert ids == ids[..|ids| - 1] + [ids[|ids| - 1]];
      assert gone !in ids ==> Drop(ids, gone) == ids;
    }
  }

  // ----- The mirror -----

  // Every text that names the tool does so in the form `str` gives it.
  predicate Canonical(u: Uuids, ids: seq<string>, t: ToolId) {
    forall x <- ids :: u.parse(x) == Some(t) ==> x == u.show(t)
  }

  // Removing the printed id removes the tool exactly when no other text names it.
  lemma DropParsed(u: Uuids, ids: seq<string>, t: ToolId)
    requires Lawful(u)
    ensures Parsed(u, Drop(ids, u.show(t))) - {t} == Parsed(u, ids) - {t}
    ensures t in Parsed(u, Drop(ids, u.show(t))) <==> !Canonical(u, ids, t)
  {
    DropMeans(ids, u.show(t));
    hide Drop;
    var left := Drop(ids, u.show(t));
    forall s ensures s in Parsed(u, left) - {t} <==> s in Parsed(u, ids) - {t} {
      if s in Parsed(u, ids) && s != t {
        var x :| x in ids && u.parse(x) == Some(s);
        assert x in left;
      }
    }
  }

  lemma RevisedMirrors(u: Uuids, db: Db, a: AgentId, agent: Agent, sync: bool, notes: Option<string>)
    requires Mirror(u, db)
    requires sync || (a in db.agents && agent.toolIds == db.agents[a].toolIds)
    ensures Mirror(u, Revised(u, db, a, agent, sync, notes))
  {
    hide Parsed, Synced, BoundTo;
    if sync && Synced(u, db, a, agent.toolIds).Some? {
      SyncMeans(u, db, a, agent.toolIds);
    }
  }

  // Deleting a tool keeps the mirror exactly when every agent that names the tool is in the
  // workspace that deletes it and names it in printed form only.
  predicate PrunesAll(u: Uuids, db: Db, w: WorkspaceId, t: ToolId) {
    forall a <- db.agents :: t in Parsed(u, db.agents[a].toolIds) ==>
      db.agents[a].workspace == w && Canonical(u, db.agents[a].toolIds, t)
  }

  lemma DeleteToolMirrors(u: Uuids, db: Db, w: WorkspaceId, t: ToolId)
    requires Lawful(u) && Mirror(u, db) && t in db.tools
    ensures Mirror(u, Apply(u, db, DeleteTool(w, t))) <==> PrunesAll(u, db, w, t)
  {
    var db1 := Apply(u, db, DeleteTool(w, t));
    hide Parsed, Drop, Lawful, Canonical;
    assert db1.agents.Keys == db.agents.Keys;
    forall a | a in db.agents
      ensures BoundTo(db1.bindings, a) == Parsed(u, db1.agents[a].toolIds) <==>
        (t in Parsed(u, db.agents[a].toolIds) ==> db.agents[a].workspace == w && Canonical(u, db.agents[a].toolIds, t))
    {
      DropParsed(u, db.agents[a].toolIds, t);
      NotNamed(u, db.agents[a].toolIds, t);
      assert BoundTo(db1.bindings, a) == BoundTo(db.bindings, a) - {t} by {
        forall s ensures s in BoundTo(db1.bindings, a) <==> s in BoundTo(db.bindings, a) - {t} {
          assert (a, s) in db1.bindings <==> (a, s) in db.bindings && s != t;
        }
      }
    }
  }

  lemma NotNamed(u: Uuids, ids: seq<string>, t: ToolId)
    ensures t !in Parsed(u, ids) ==> Canonical(u, ids, t)
  {}

  // Every other request keeps the mirror.
  lemma MirrorKept(u: Uuids, db: Db, op: Op)
    requires Lawful(u) && Mirror(u, db)
    ensures Mirror(u, Apply(u, db, op)) <==>
      !(op.DeleteTool? && op.tool in db.tools && !PrunesAll(u, db, op.workspace, op.tool))
  {
    hide Revised, Parsed, Drop, Lawful, PrunesAll, Without;
    match op
    case Create(w, a, slug, profile, ids, accepted) =>
      RevisedMirrors(u, db, a, Agent(w, slug, profile, ids, 1), true, None);
    case DeleteAgent(w, a) =>
      var db1 := Apply(u, db, op);
      forall b | b != a ensures BoundTo(db1.bindings, b) == BoundTo(db.bindings, b) {
        forall t ensures t in BoundTo(db1.bindings, b) <==> t in BoundTo(db.bindings, b) {
          assert (b, t) in db1.bindings <==> (b, t) in db.bindings;
        }
      }
    case CreateTool(_, _) =>
    case DeleteTool(w, t) =>
      if t in db.tools {
        DeleteToolMirrors(u, db, w, t);
      }
    case _ =>
      if Owned(db, op.workspace, op.id) {
        var agent := db.agents[op.id];
        match op
        case Update(_, a, p, _) => RevisedMirrors(u, db, a, Patched(agent, p), p.toolIds.Some?, None);
        case Publish(_, a, notes) => RevisedMirrors(u, db, a, Bumped(agent, agent.toolIds), false, Notes(notes));
        case Bind(_, a, t) => RevisedMirrors(u, db, a, Bumped(agent, With(agent.toolIds, u.show(t))), true, None);
        case Unbind(_, a, t) => RevisedMirrors(u, db, a, Bumped(agent, Drop(agent.toolIds, u.show(t))), true, None);
        case _ =>
      }
  }

  // ----- What each request does -----

  // The agent is written as given, with a snapshot of it; its rows become `rows`; nothing else changes.
  ghost predicate Written(db: Db, db1: Db, a: AgentId, agent: Agent, rows: set<ToolId>, notes: Option<string>) {
    && db1.agents == db.agents[a := agent] && db1.tools == db.tools
    && BoundTo(db1.bindings, a) == rows
    && (forall b :: b != a ==> BoundTo(db1.bindings, b) == BoundTo(db.bindings, b))
    && db1.versions == db.versions + [VersionRow(a, agent.version, agent, notes)]
  }

  // The list names a tool that does not exist.
  predicate NamesMissing(u: Uuids, db: Db, ids: seq<string>) {
    exists x <- ids :: u.parse(x).Some? && u.parse(x).value !in db.tools
  }

  lemma ParsedMeans(u: Uuids, ids: seq<string>, t: ToolId)
    ensures t in Parsed(u, ids) <==> exists x <- ids :: u.parse(x) == Some(t)
  {
  }

  lemma RevisedMeans(u: Uuids, db: Db, a: AgentId, agent: Agent, sync: bool, notes: Option<string>)
    requires References(db)
    ensures
      var db1 := Revised(u, db, a, agent, sync, notes);
      if sync && NamesMissing(u, db, agent.toolIds) then db1 == db
      else Written(db, db1, a, agent, if sync then Parsed(u, agent.toolIds) else BoundTo(db.bindings, a), notes)
  {
    var desired := Parsed(u, agent.toolIds);
    BoundToExisting(db, a);
    if x :| x in agent.toolIds && u.parse(x).Some? && u.parse(x).value !in db.tools {
      assert u.parse(x).value in desired;
    }
    assert NamesMissing(u, db, agent.toolIds) <==> !(desired <= db.tools.Keys);
    hide Parsed, BoundTo, NamesMissing;
    if sync && Synced(u, db, a, agent.toolIds).Some? {
      SyncMeans(u, db, a, agent.toolIds);
      hide Synced;
      forall b | b != a ensures BoundTo(Synced(u, db, a, agent.toolIds).value, b) == BoundTo(db.bindings, b) {
        assert b !in {a};
      }
    }
  }

  // A new agent has version 1 and the list given, unless its workspace has the slug already, or its
  // list names a tool that does not exist.
  lemma CreateMeans(u: Uuids, db: Db, w: WorkspaceId, a: AgentId, slug: string, profile: Json, ids: seq<string>)
    requires References(db) && a !in db.agents
    ensures
      var db1 := Apply(u, db, Create(w, a, slug, profile, ids, true));
      var taken := exists b <- db.agents :: db.agents[b].workspace == w && db.agents[b].slug == slug;
      if taken || NamesMissing(u, db, ids) then db1 == db
      else Written(db, db1, a, Agent(w, slug, profile, ids, 1), Parsed(u, ids), None)
  {
    RevisedMeans(u, db, a, Agent(w, slug, profile, ids, 1), true, None);
    hide Revised, NamesMissing, Written;
  }

  // An accepted update sets the list and the profile it gives, keeps the one it does not, and raises the
  // version; the rows follow the list if the key is there. It fails exactly when the key is there and the
  // list, given or kept, names a tool that does not exist.
  lemma UpdateMeans(u: Uuids, db: Db, w: WorkspaceId, a: AgentId, patch: Patch)
    requires References(db) && Owned(db, w, a)
    ensures
      var was, db1 := db.agents[a], Apply(u, db, Update(w, a, patch, true));
      var ids := match patch.toolIds case Some(Some(given)) => given case _ => was.toolIds;
      var profile := match patch.profile case Some(given) => given case None => was.profile;
      var rows := if patch.toolIds.Some? then Parsed(u, ids) else BoundTo(db.bindings, a);
      if patch.toolIds.Some? && NamesMissing(u, db, ids) then db1 == db
      else Written(db, db1, a, Agent(w, was.slug, profile, ids, was.version + 1), rows, None)
  {
    RevisedMeans(u, db, a, Patched(db.agents[a], patch), patch.toolIds.Some?, None);
    hide Revised, NamesMissing, Written;
  }

  // Publishing raises the version and keeps everything else; the notes are cut to 4096 characters.
  lemma PublishMeans(u: Uuids, db: Db, w: WorkspaceId, a: AgentId, notes: string)
    requires References(db) && Owned(db, w, a)
    ensures
      var was, db1 := db.agents[a], Apply(u, db, Publish(w, a, notes));
      var kept := if notes == "" then None else if |notes| <= 4096 then Some(notes) else Some(notes[..4096]);
      Written(db, db1, a, Agent(w, was.slug, was.profile, was.toolIds, was.version + 1), BoundTo(db.bindings, a), kept)
  {
    RevisedMeans(u, db, a, Bumped(db.agents[a], db.agents[a].toolIds), false, Notes(notes));
    assert Take(notes, 4096) == notes[..|Take(notes, 4096)|] && notes[..|notes|] == notes;
    assert notes != "" ==> Notes(notes) == Some(if |notes| <= 4096 then notes else notes[..4096]);
    hide Revised, NamesMissing, Written;
  }

  // Binding adds the printed id at the end of the list, unless it is there.
  lemma BindMeans(u: Uuids, db: Db, w: WorkspaceId, a: AgentId, t: ToolId)
    requires References(db) && Owned(db, w, a)
    ensures
      var was, db1 := db.agents[a], Apply(u, db, Bind(w, a, t));
      var ids := if u.show(t) in was.toolIds then was.toolIds else was.toolIds + [u.show(t)];
      if NamesMissing(u, db, ids) then db1 == db
      else Written(db, db1, a, Agent(w, was.slug, was.profile, ids, was.version + 1), Parsed(u, ids), None)
  {
    RevisedMeans(u, db, a, Bumped(db.agents[a], With(db.agents[a].toolIds, u.show(t))), true, None);
    hide Revised, NamesMissing, Written;
  }

  // Unbinding takes every printed id of the tool out of the list, if there is one.
  lemma UnbindMeans(u: Uuids, db: Db, w: WorkspaceId, a: AgentId, t: ToolId)
    requires References(db) && Owned(db, w, a)
    ensures
      var was, db1 := db.agents[a], Apply(u, db, Unbind(w, a, t));
      var ids := Drop(was.toolIds, u.show(t));
      if u.show(t) !in was.toolIds || NamesMissing(u, db, ids) then db1 == db
      else Written(db, db1, a, Agent(w, was.slug, was.profile, ids, was.version + 1), Parsed(u, ids), None)
  {
    RevisedMeans(u, db, a, Bumped(db.agents[a], Drop(db.agents[a].toolIds, u.show(t))), true, None);
    hide Revised, NamesMissing, Written;
  }

  // What is taken out of a list, text by text.
  lemma DropOneByOne(ids: seq<string>, x: string, gone: string)
    ensures Drop([], gone) == []
    ensures Drop(ids + [x], gone) == Drop(ids, gone) + if x == gone then [] else [x]
  {
    assert (ids + [x])[..|ids|] == ids;
  }

  // Requests for an agent that is not in the workspace, and those refused beforehand, change nothing.
  lemma RefusedMeans(u: Uuids, db: Db, op: Op)
    requires !op.CreateTool? && !op.DeleteTool?
    requires if op.Create? then !op.accepted
             else !Owned(db, op.workspace, op.id) || (op.Update? && !op.accepted)
    ensures Apply(u, db, op) == db
  {
    hide Revised;
  }

  // Deleting an agent takes its rows and its snapshots along, and nothing else.
  lemma DeleteAgentMeans(u: Uuids, db: Db, w: WorkspaceId, a: AgentId)
    requires Owned(db, w, a)
    ensures
      var db1 := Apply(u, db, DeleteAgent(w, a));
      && db1.agents == db.agents - {a} && db1.tools == db.tools
      && BoundTo(db1.bindings, a) == {} && VersionsOf(db1.versions, a) == []
      && forall b :: b != a ==>
           && BoundTo(db1.bindings, b) == BoundTo(db.bindings, b)
           && VersionsOf(db1.versions, b) == VersionsOf(db.versions, b)
  {
    var db1 := Apply(u, db, DeleteAgent(w, a));
    forall b
      ensures VersionsOf(db1.versions, b) == if b == a then [] else VersionsOf(db.versions, b)
      ensures BoundTo(db1.bindings, b) == if b == a then {} else BoundTo(db.bindings, b)
    {
      VersionsWithout(db.versions, a, b);
      forall t ensures t in BoundTo(db1.bindings, b) <==> b != a && t in BoundTo(db.bindings, b) {
        assert (b, t) in db1.bindings <==> b != a && (b, t) in db.bindings;
      }
    }
  }

  // Deleting a tool takes its rows out everywhere, and its printed id out of the lists of one workspace;
  // nothing else changes, and no agent gets a new version.
  lemma DeleteToolMeans(u: Uuids, db: Db, w: WorkspaceId, t: ToolId)
    requires t in db.tools
    ensures
      var db1 := Apply(u, db, DeleteTool(w, t));
      && db1.tools == db.tools - {t} && db1.versions == db.versions && db1.agents.Keys == db.agents.Keys
      && (forall a: AgentId :: BoundTo(db1.bindings, a) == BoundTo(db.bindings, a) - {t})
      && forall a <- db.agents ::
           var was := db.agents[a];
           db1.agents[a] == was.(toolIds := if was.workspace == w then Drop(was.toolIds, u.show(t)) else was.toolIds)
  {
    var db1 := Apply(u, db, DeleteTool(w, t));
    hide Drop;
    forall a: AgentId ensures BoundTo(db1.bindings, a) == BoundTo(db.bindings, a) - {t} {
      forall s: ToolId ensures s in BoundTo(db1.bindings, a) <==> s in BoundTo(db.bindings, a) - {t} {
        assert (a, s) in db1.bindings <==> (a, s) in db.bindings && s != t;
      }
    }
  }

  // ----- Runs -----

  function Exec(u: Uuids, ops: seq<Op>): Db {
    if ops == [] then Db(map[], map[], {}, []) else Apply(u, Exec(u, ops[..|ops| - 1]), ops[|ops| - 1])
  }

  lemma {:induction false} AlwaysSane(u: Uuids, ops: seq<Op>)
    ensures Sane(Exec(u, ops))
  {
    if ops != [] {
      hide Apply;
      AlwaysSane(u, ops[..|ops| - 1]);
      ApplyKeepsSane(u, Exec(u, ops[..|ops| - 1]), ops[|ops| - 1]);
    }
  }

  // Snapshots are immutable over runs: whatever requests come next, none of which deletes the agent,
  // its snapshots so far stay as they are, in front of those to come.
  lemma {:induction false} SnapshotsStay(u: Uuids, ops: seq<Op>, more: seq<Op>, a: AgentId)
    requires forall op <- more :: !(op.DeleteAgent? && op.id == a)
    ensures VersionsOf(Exec(u, ops).versions, a) <= VersionsOf(Exec(u, ops + more).versions, a)
  {
    hide Apply, VersionsOf, Sane;
    if more == [] {
      assert ops + more == ops;
    } else {
      var init, last := more[..|more| - 1], more[|more| - 1];
      SnapshotsStay(u, ops, init, a);
      AlwaysSane(u, ops + init);
      EarlierSnapshotsStay(u, Exec(u, ops + init), last, a);
      assert (ops + more)[..|ops + more| - 1] == ops + init && (ops + more)[|ops + more| - 1] == last;
      assert Exec(u, ops + more) == Apply(u, Exec(u, ops + init), last);
    }
  }

  // No request of the run deletes a tool that its pruning would miss somewhere.
  predicate PrunesAlways(u: Uuids, ops: seq<Op>) {
    forall k :: 0 <= k < |ops| && ops[k].DeleteTool? && ops[k].tool in Exec(u, ops[..k]).tools ==>
      PrunesAll(u, Exec(u, ops[..k]), ops[k].workspace, ops[k].tool)
  }

  // The join table is what the lists say all through a run exactly when every deletion of a tool
  // reaches every agent that names it.
  lemma MirrorsThroughoutIff(u: Uuids, ops: seq<Op>)
    requires Lawful(u)
    ensures (forall k :: 0 <= k <= |ops| ==> Mirror(u, Exec(u, ops[..k]))) <==> PrunesAlways(u, ops)
  {
    hide Exec, Apply, Mirror, PrunesAll, Lawful;
    if forall k :: 0 <= k <= |ops| ==> Mirror(u, Exec(u, ops[..k])) {
      forall k | 0 <= k < |ops| && ops[k].DeleteTool? && ops[k].tool in Exec(u, ops[..k]).tools
        ensures PrunesAll(u, Exec(u, ops[..k]), ops[k].workspace, ops[k].tool)
      {
        MirrorStep(u, ops, k);
      }
    }
    if PrunesAlways(u, ops) {
      NothingMirrors(u, ops);
      for k := 0 to |ops|
        invariant forall i :: 0 <= i <= k ==> Mirror(u, Exec(u, ops[..i]))
      {
        MirrorStep(u, ops, k);
      }
    }
  }

  lemma MirrorStep(u: Uuids, ops: seq<Op>, k: nat)
    requires Lawful(u) && k < |ops| && Mirror(u, Exec(u, ops[..k]))
    ensures Mirror(u, Exec(u, ops[..k + 1])) <==>
      (ops[k].DeleteTool? && ops[k].tool in Exec(u, ops[..k]).tools ==>
         PrunesAll(u, Exec(u, ops[..k]), ops[k].workspace, ops[k].tool))
  {
    hide Exec, Apply, Mirror, PrunesAll, Lawful;
    ExecOneMore(u, ops, k);
    MirrorKept(u, Exec(u, ops[..k]), ops[k]);
  }

  lemma ExecOneMore(u: Uuids, ops: seq<Op>, k: nat)
    requires k < |ops|
    ensures Exec(u, ops[..k + 1]) == Apply(u, Exec(u, ops[..k]), ops[k])
  {
    hide Apply;
    assert ops[..k + 1][..k] == ops[..k];
  }

  lemma NothingMirrors(u: Uuids, ops: seq<Op>)
    ensures Mirror(u, Exec(u, ops[..0]))
  {
  }

  // Ids are canonical and name tools of the agent's own workspace or global ones, and a tool is deleted
  // from its own workspace.
  predicate OwnToolsOnly(u: Uuids, db: Db, w: WorkspaceId, ids: seq<string>) {
    forall x <- ids :: u.parse(x).Some? ==>
      var t := u.parse(x).value;
      x == u.show(t) && t in db.tools && (db.tools[t] == None || db.tools[t] == Some(w))
  }

  predicate Careful(u: Uuids, db: Db, op: Op) {
    match op
    case Create(w, _, _, _, ids, _) => OwnToolsOnly(u, db, w, ids)
    case Update(w, _, p, _) => OwnToolsOnly(u, db, w, p.toolIds.GetOr(None).GetOr([]))
    case Bind(w, _, t) => t in db.tools && (db.tools[t] == None || db.tools[t] == Some(w))
    case DeleteTool(w, t) => t in db.tools ==> db.tools[t] == Some(w)
    case _ => true
  }

  predicate CarefulRun(u: Uuids, ops: seq<Op>) {
    ops != [] ==> CarefulRun(u, ops[..|ops| - 1]) && Careful(u, Exec(u, ops[..|ops| - 1]), ops[|ops| - 1])
  }

  predicate AllOwn(u: Uuids, db: Db) {
    forall a <- db.agents :: OwnToolsOnly(u, db, db.agents[a].workspace, db.agents[a].toolIds)
  }

  lemma AllOwnKept(u: Uuids, db: Db, op: Op)
    requires Lawful(u) && AllOwn(u, db) && Careful(u, db, op)
    ensures AllOwn(u, Apply(u, db, op))
  {
    hide Synced, Without, Drop;
    match op
    case Unbind(w, a, t) =>
      if a in db.agents {
        DropMeans(db.agents[a].toolIds, u.show(t));
      }
    case DeleteTool(w, t) =>
      forall a | a in db.agents {
        DropMeans(db.agents[a].toolIds, u.show(t));
      }
    case _ =>
  }

  // After every careful run the join table is exactly what the lists say.
  lemma {:induction false} CarefulRunsMirror(u: Uuids, ops: seq<Op>)
    requires Lawful(u) && CarefulRun(u, ops)
    ensures Mirror(u, Exec(u, ops)) && AllOwn(u, Exec(u, ops))
  {
    if ops != [] {
      var db, op := Exec(u, ops[..|ops| - 1]), ops[|ops| - 1];
      hide Apply;
      CarefulRunsMirror(u, ops[..|ops| - 1]);
      AllOwnKept(u, db, op);
      MirrorKept(u, db, op);
      if op.DeleteTool? && op.tool in db.tools {
        OwnPrunesAll(u, db, op.workspace, op.tool);
      }
    }
  }

  lemma OwnPrunesAll(u: Uuids, db: Db, w: WorkspaceId, t: ToolId)
    requires AllOwn(u, db) && t in db.tools && db.tools[t] == Some(w)
    ensures PrunesAll(u, db, w, t)
  {}

  // Binding fails exactly when the tool does not exist, or the list already names one that does not.
  lemma BindFailsIff(u: Uuids, db: Db, w: WorkspaceId, a: AgentId, t: ToolId)
    requires Lawful(u) && Sane(db) && Owned(db, w, a)
    ensures Apply(u, db, Bind(w, a, t)) == db <==>
      t !in db.tools || exists s <- Parsed(u, db.agents[a].toolIds) :: s !in db.tools
  {
    hide VersionsFit, SlugsAreUnique;
    var listed := db.agents[a].toolIds;
    var ids := With(listed, u.show(t));
    ParsedWith(u, listed, t);
    BoundToExisting(db, a);
    hide Parsed, With, Lawful;
    assert Synced(u, db, a, ids) == None <==> !(Parsed(u, ids) <= db.tools.Keys);
    if Synced(u, db, a, ids).Some? {
      assert Apply(u, db, Bind(w, a, t)).agents[a].version == db.agents[a].version + 1;
    }
  }

  lemma ParsedWith(u: Uuids, ids: seq<string>, t: ToolId)
    requires Lawful(u)
    ensures Parsed(u, With(ids, u.show(t))) == Parsed(u, ids) + {t}
  {
    ParsedSnoc(u, ids, u.show(t));
    if u.show(t) in ids {
      assert t in Parsed(u, ids);
    }
  }

  lemma BoundToExisting(db: Db, a: AgentId)
    requires References(db)
    ensures BoundTo(db.bindings, a) <= db.tools.Keys
  {
  }

  // So once a list names a tool that is gone, no tool can be bound to the agent, whichever it is.
  lemma StaleIdBlocksBinding(u: Uuids, db: Db, w: WorkspaceId, a: AgentId, stale: ToolId, t: ToolId)
    requires Lawful(u) && Sane(db) && a in db.agents
    requires stale in Parsed(u, db.agents[a].toolIds) && stale !in db.tools
    ensures Apply(u, db, Bind(w, a, t)) == db
  {
    if Owned(db, w, a) {
      BindFailsIff(u, db, w, a, t);
    }
  }

  // ----- The failures happen -----

  function OneAgent(u: Uuids, slug: string, profile: Json): seq<Op> {
    [CreateTool(0, None), Create(0, 0, slug, profile, [u.show(0)], true)]
  }

  lemma OneAgentMeans(u: Uuids, slug: string, profile: Json)
    requires Lawful(u)
    ensures
      var agent := Agent(0, slug, profile, [u.show(0)], 1);
      Exec(u, OneAgent(u, slug, profile))
      == Db(map[0 := agent], map[0 := None], {(0, 0)}, [VersionRow(0, 1, agent, None)])
  {
    var ops := OneAgent(u, slug, profile);
    var db := Db(map[], map[0 := None], {}, []);
    assert ops[..1][..0] == [] && Exec(u, ops[..1]) == db;
    assert Parsed(u, [u.show(0)]) == {0};
    hide Parsed, Lawful;
    var desired: set<ToolId> := {0};
    assert Parsed(u, [u.show(0)]) == desired && desired - BoundTo(db.bindings, 0) <= db.tools.Keys;
    assert (set b <- db.bindings | b.0 != 0 || b.1 in desired) + Rows(0, desired) == {(0, 0)};
    assert Synced(u, db, 0, [u.show(0)]) == Some({(0, 0)});
  }

  // A run that leaves a list with the id of a deleted tool: a global tool, deleted from a workspace
  // that is not the agent's. From then on the agent can bind no tool.
  lemma ForeignDeletionBreaksMirror(u: Uuids, slug: string, profile: Json, t: ToolId)
    requires Lawful(u)
    ensures
      var ops := OneAgent(u, slug, profile) + [DeleteTool(1, 0)];
      && !Mirror(u, Exec(u, ops))
      && Owned(Exec(u, ops), 0, 0) && Exec(u, ops + [Bind(0, 0, t)]) == Exec(u, ops)
  {
    var ops := OneAgent(u, slug, profile);
    var db := Exec(u, ops);
    OneAgentMeans(u, slug, profile);
    ExecSnoc(u, ops, DeleteTool(1, 0));
    ExecSnoc(u, ops + [DeleteTool(1, 0)], Bind(0, 0, t));
    AlwaysSane(u, ops + [DeleteTool(1, 0)]);
    hide Exec, OneAgent, Sane;
    assert 0 in Parsed(u, db.agents[0].toolIds);
    assert Mirror(u, db) by {
      assert BoundTo(db.bindings, 0) == {0} == Parsed(u, db.agents[0].toolIds);
    }
    DeleteToolMirrors(u, db, 1, 0);
    StaleIdBlocksBinding(u, Apply(u, db, DeleteTool(1, 0)), 0, 0, 0, t);
  }

  // A run after which the newest snapshot of an agent is not the agent: the tool is deleted from the
  // agent's own workspace. Just before, it still was.
  lemma DeletionLeavesSnapshotBehind(u: Uuids, slug: string, profile: Json)
    requires Lawful(u)
    ensures SnapshotsCurrent(Exec(u, OneAgent(u, slug, profile)))
    ensures !SnapshotsCurrent(Exec(u, OneAgent(u, slug, profile) + [DeleteTool(0, 0)]))
  {
    var ops := OneAgent(u, slug, profile);
    var db := Exec(u, ops);
    OneAgentMeans(u, slug, profile);
    ExecSnoc(u, ops, DeleteTool(0, 0));
    AlwaysSane(u, ops);
    hide Exec, OneAgent, Sane, Apply;
    VersionsSnoc([], db.versions[0], 0);
    SnapshotsKept(u, db, DeleteTool(0, 0));
  }

  lemma ExecSnoc(u: Uuids, ops: seq<Op>, last: Op)
    ensures Exec(u, ops + [last]) == Apply(u, Exec(u, ops), last)
  {
    hide Apply;
    assert (ops + [last])[..|ops|] == ops;
  }
}

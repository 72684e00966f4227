/**
 What each operation of the MCP manager changes and what it leaves, told from the files it loads: every other
 server keeps its place, its enablement and its client.
 */
module McpFrames {
  import opened Wrappers
  import opened Mcp

  // ---------------------------------------------------------------------
  // Catching up with the files
  // ---------------------------------------------------------------------

  /** Both files can be read. */
  predicate Readable(c: Codec, f: Files) {
    LoadGlobal(c, f.global).Some? && LoadProject(c, f.project).Some?
  }

  /** A client outlives a reload if its definition stands unchanged and its server was not disabled. */
  predicate Survives(s: State, u: State, n: string) {
    && n in s.clients && Lookup(u.global, n) == Some(s.clients[n])
    && (n in s.project.enabled ==> n in u.project.enabled)
  }

  /** Memory once it has caught up: nothing changed, or it is what the files hold, with the clients that survive. */
  ghost predicate Caught(c: Codec, s: State, f: Files, u: State) {
    if UpToDate(s, f) then u == s
    else
      && UpToDate(u, f) && LoadGlobal(c, f.global) == Some(u.global) && LoadProject(c, f.project) == Some(u.project)
      && (forall n :: n in u.clients <==> Survives(s, u, n))
      && (forall n :: n in u.clients ==> u.clients[n] == s.clients[n])
  }

  lemma {:induction false} ChangedOnly(global: seq<Server>, loaded: seq<Server>, p: Project, q: Project, n: string)
    requires NamesDistinct(loaded) && Lookup(loaded, n) == Lookup(global, n)
    requires n in p.enabled ==> n in q.enabled
    ensures n !in Changed(global, loaded, p, q)
  {
    hide Lookup;
    if j :| 0 <= j < |loaded| && Lookup(global, loaded[j].name) != Some(loaded[j]) && loaded[j].name == n {
      LookupAt(loaded, j);
    }
    if i :| 0 <= i < |global| && Lookup(loaded, global[i].name).None? && global[i].name == n {
      LookupFinds(global, i);
    }
  }

  lemma {:induction false} LookupFinds(servers: seq<Server>, i: nat)
    requires i < |servers|
    ensures Lookup(servers, servers[i].name).Some?
  {
    LookupPosition(servers, servers[i].name);
  }

  /** A reload stops exactly the clients whose server was redefined, removed or disabled. */
  lemma {:induction false} ReloadStops(c: Codec, s: State, f: Files)
    requires Valid(c, s)
    ensures ReloadIfChanged(c, s, f).Some? <==> UpToDate(s, f) || Readable(c, f)
    ensures ReloadIfChanged(c, s, f).Some? ==> Caught(c, s, f, ReloadIfChanged(c, s, f).value)
  {
    hide Lookup, Changed, LoadGlobal, LoadProject;
    if !UpToDate(s, f) && Readable(c, f) {
      var u := ReloadIfChanged(c, s, f).value;
      LoadedDistinct(c, f.global);
      assert u.clients == s.clients - Changed(s.global, u.global, s.project, u.project);
      forall n
        ensures n in u.clients <==> Survives(s, u, n)
      {
        if Survives(s, u, n) {
          ChangedOnly(s.global, u.global, s.project, u.project, n);
        }
        if n in u.clients {
          UnchangedSame(s.global, u.global, s.project, u.project, n);
          DisabledChanged(s.global, u.global, s.project, u.project, n);
        }
      }
    }
  }

  lemma {:induction false} DisabledChanged(global: seq<Server>, loaded: seq<Server>, p: Project, q: Project, n: string)
    ensures n !in Changed(global, loaded, p, q) && n in p.enabled ==> n in q.enabled
  {
  }

  // ---------------------------------------------------------------------
  // Frames
  // ---------------------------------------------------------------------

  /** Only this server's enablement is set. */
  ghost predicate EnablementSet(u: State, t: State, name: string, on: bool) {
    forall n :: n in t.project.enabled <==> if n == name then on else n in u.project.enabled
  }

  /** Exactly these clients are stopped. */
  ghost predicate Stopped(u: State, t: State, names: set<string>) {
    && (forall n :: n in t.clients <==> n in u.clients && n !in names)
    && (forall n :: n in t.clients ==> t.clients[n] == u.clients[n])
  }

  /** A failed save leaves the file, or has removed it. */
  ghost predicate Failed(before: Option<string>, after: Option<string>, save: Save) {
    (save.Kept? && after == before) || (save.Lost? && after.None?)
  }

  /** The files hold what memory does. */
  ghost predicate InStep(c: Codec, t: State, g: Files) {
    UpToDate(t, g) && InSync(c, t, g)
  }

  /** What every operation does before its own work: stop with memory and files as they were, or catch up. */
  ghost predicate Loaded<T>(c: Codec, s: State, f: Files, u: State, t: State, g: Files, r: Result<T>) {
    if UpToDate(s, f) || Readable(c, f) then Caught(c, s, f, u) else t == s && g == f && r == Err(Load)
  }

  predicate Loads(c: Codec, s: State, f: Files) {
    UpToDate(s, f) || Readable(c, f)
  }

  /** The state the operation works on. */
  ghost function Current(c: Codec, s: State, f: Files): State {
    ReloadIfChanged(c, s, f).GetOr(s)
  }

  // ---------------------------------------------------------------------
  // Enabling and disabling
  // ---------------------------------------------------------------------

  ghost predicate EnableDone(c: Codec, u: State, f: Files, name: string, on: bool, save: Save,
                             t: State, g: Files, r: Result<ServerState>)
  {
    match Lookup(u.global, name)
    case None => t == u && g == f && r == Err(Unknown)
    case Some(config) =>
      && g.global == f.global
      && if !save.Saved? then t == u && r == Err(Io) && Failed(f.project, g.project, save)
         else
           && r == Ok(ServerState(config, on)) && InStep(c, t, g)
           && t.global == u.global && t.project.legacy == [] && EnablementSet(u, t, name, on)
           && Stopped(u, t, if on then {} else {name})
  }

  /** Caught up, memory needs no reload. */
  lemma {:induction false} CurrentStays(c: Codec, s: State, f: Files)
    requires Valid(c, s)
    ensures Loads(c, s, f) <==> ReloadIfChanged(c, s, f).Some?
    ensures Loads(c, s, f) ==>
      var u := Current(c, s, f);
      && ReloadIfChanged(c, s, f) == Some(u) && ReloadIfChanged(c, u, f) == Some(u)
      && Valid(c, u) && UpToDate(u, f) && Caught(c, s, f, u)
  {
    ReloadStops(c, s, f);
    hide Reload, Valid, Caught;
    if Loads(c, s, f) {
      Refreshed(c, s, f);
    }
  }

  lemma {:induction false} EnableFrom(c: Codec, u: State, f: Files, name: string, on: bool, save: Save)
    requires RoundTrips(c) && Valid(c, u) && UpToDate(u, f)
    ensures var (t, g, r) := SetEnabled(c, u, f, name, on, save);
      EnableDone(c, u, f, name, on, save, t, g, r)
  {
    SetEnabledKeeps(c, u, f, name, on, save);
    hide Reload, RoundTrips, LoadGlobal, LoadProject, Lookup;
  }

  lemma {:induction false} EnableTold(c: Codec, s: State, f: Files, name: string, on: bool, save: Save)
    requires RoundTrips(c) && Valid(c, s)
    ensures var (t, g, r) := SetEnabled(c, s, f, name, on, save);
      var u := Current(c, s, f);
      && Loaded(c, s, f, u, t, g, r)
      && (Loads(c, s, f) ==> EnableDone(c, u, f, name, on, save, t, g, r))
  {
    CurrentStays(c, s, f);
    hide Reload, RoundTrips, Lookup, Caught, EnableDone, Valid, ReloadIfChanged, Current, Readable;
    var u := Current(c, s, f);
    if Loads(c, s, f) {
      EnableFrom(c, u, f, name, on, save);
      assert SetEnabled(c, s, f, name, on, save) == SetEnabled(c, u, f, name, on, save);
    }
  }

  // ---------------------------------------------------------------------
  // Adding
  // ---------------------------------------------------------------------

  /** The definitions with one more at the end; enablement and clients as they were. */
  ghost predicate Appended(c: Codec, u: State, f: Files, server: Server, t: State, g: Files) {
    && t.global == u.global + [server] && t.project == u.project && t.clients == u.clients
    && g.project == f.project && InStep(c, t, g)
  }

  /** An added server that is to be enabled too: the second save may fail, and the definition then stays. */
  ghost predicate AddDone(c: Codec, u: State, f: Files, server: Server, enable: bool, save: Save, enabling: Save,
                          t: State, g: Files, r: Result<ServerState>)
  {
    if Lookup(u.global, server.name).Some? then t == u && g == f && r == Err(Duplicate)
    else if !save.Saved? then t == u && r == Err(Io) && g.project == f.project && Failed(f.global, g.global, save)
    else if !enable then r == Ok(ServerState(server, false)) && Appended(c, u, f, server, t, g)
    else
      exists mid: State, h: Files :: Appended(c, u, f, server, mid, h)
        && g.global == h.global
        && if !enabling.Saved? then t == mid && r == Err(Io) && Failed(h.project, g.project, enabling)
           else
             && r == Ok(ServerState(server, true)) && InStep(c, t, g)
             && t.global == mid.global && EnablementSet(u, t, server.name, true) && Stopped(u, t, {})
  }

  lemma {:induction false} AddTold(c: Codec, s: State, f: Files, server: Server, enable: bool, save: Save, enabling: Save)
    requires RoundTrips(c) && Valid(c, s)
    ensures var (t, g, r) := AddServer(c, s, f, server, enable, save, enabling);
      var u := Current(c, s, f);
      if !c.valid(server) then t == s && g == f && r == Err(InvalidConfig)
      else
        && Loaded(c, s, f, u, t, g, r)
        && (Loads(c, s, f) ==> AddDone(c, u, f, server, enable, save, enabling, t, g, r))
  {
    ReloadStops(c, s, f);
    AddKeeps(c, s, f, server, enable, save, enabling);
    if c.valid(server) && Loads(c, s, f) {
      var u := Current(c, s, f);
      Refreshed(c, s, f);
      if Lookup(u.global, server.name).None? && save.Saved? {
        AppendedIs(c, u, f, server);
        var (mid, h) := PersistGlobal(c, u, f, u.global + [server], Saved);
        EnabledAfter(c, u, f, server, mid, h, enabling);
        hide Reload, RoundTrips, LoadGlobal, LoadProject, Lookup, Caught, SetEnabled, Appended, EnableDone, Valid,
          PersistGlobal, Stopped, EnablementSet, InStep;
      }
    }
    hide Reload, RoundTrips, LoadGlobal, LoadProject, Lookup, Caught, SetEnabled, Appended;
  }

  lemma {:induction false} AppendedIs(c: Codec, u: State, f: Files, server: Server)
    requires RoundTrips(c) && Valid(c, u) && UpToDate(u, f) && c.valid(server) && Lookup(u.global, server.name).None?
    ensures var (mid, h) := PersistGlobal(c, u, f, u.global + [server], Saved);
      Valid(c, mid) && Appended(c, u, f, server, mid, h)
  {
    FaithfulServers(c, u);
    AppendFits(c, u, server);
    GlobalPersisted(c, u, f, u.global + [server], u.clients);
    hide RoundTrips, LoadGlobal, LoadProject, Lookup, NamesDistinct, AllValid;
    var mid := PersistGlobal(c, u, f, u.global + [server], Saved).0;
    assert mid.(clients := u.clients) == mid;
  }

  lemma {:induction false} EnabledAfter(c: Codec, u: State, f: Files, server: Server, mid: State, h: Files, save: Save)
    requires RoundTrips(c) && Valid(c, mid) && Appended(c, u, f, server, mid, h)
    requires Lookup(u.global, server.name).None?
    ensures var (t, g, r) := SetEnabled(c, mid, h, server.name, true, save);
      && g.global == h.global
      && if !save.Saved? then t == mid && r == Err(Io) && Failed(h.project, g.project, save)
         else
           && r.Ok? && InStep(c, t, g)
           && t.global == mid.global && EnablementSet(u, t, server.name, true) && Stopped(u, t, {})
  {
    EnableTold(c, mid, h, server.name, true, save);
    LookupSnoc(u.global, server, server.name);
    hide Reload, RoundTrips, LoadGlobal, LoadProject, Lookup, SetEnabled, Valid;
  }

  // ---------------------------------------------------------------------
  // Updating
  // ---------------------------------------------------------------------

  /** The one definition of that name is replaced in its place. */
  ghost predicate ReplacedAt(before: seq<Server>, after: seq<Server>, server: Server, i: nat) {
    && i < |before| == |after| && before[i].name == server.name && after[i] == server
    && forall j :: 0 <= j < |before| && j != i ==> after[j] == before[j] && before[j].name != server.name
  }

  ghost predicate UpdateDone(c: Codec, u: State, f: Files, server: Server, save: Save, t: State, g: Files,
                             r: Result<ServerState>)
  {
    if Lookup(u.global, server.name).None? then t == u && g == f && r == Err(Unknown)
    else
      && g.project == f.project
      && if !save.Saved? then t == u && r == Err(Io) && Failed(f.global, g.global, save)
         else
           && r == Ok(ServerState(server, server.name in u.project.enabled)) && InStep(c, t, g)
           && (exists i: nat :: ReplacedAt(u.global, t.global, server, i))
           && t.project == u.project && Stopped(u, t, {server.name})
  }

  lemma {:induction false} UpdateFrom(c: Codec, u: State, f: Files, server: Server, save: Save)
    requires RoundTrips(c) && Valid(c, u) && UpToDate(u, f) && c.valid(server)
    ensures var (t, g, r) := UpdateServer(c, u, f, server.name, server, save);
      UpdateDone(c, u, f, server, save, t, g, r)
  {
    UpdateKeeps(c, u, f, server.name, server, save);
    FaithfulServers(c, u);
    LookupPosition(u.global, server.name);
    var i := Position(u.global, server.name);
    if i < |u.global| {
      ReplacedHere(u.global, server, i);
    }
    hide Reload, RoundTrips, LoadGlobal, LoadProject, Lookup, NamesDistinct, AllValid, ReplacedAt;
  }

  lemma {:induction false} ReplacedHere(servers: seq<Server>, server: Server, i: nat)
    requires NamesDistinct(servers) && i < |servers| && servers[i].name == server.name
    ensures ReplacedAt(servers, servers[i := server], server, i)
  {
  }

  lemma {:induction false} UpdateTold(c: Codec, s: State, f: Files, name: string, server: Server, save: Save)
    requires RoundTrips(c) && Valid(c, s)
    ensures var (t, g, r) := UpdateServer(c, s, f, name, server, save);
      var u := Current(c, s, f);
      if server.name != name || !c.valid(server) then t == s && g == f && r == Err(InvalidConfig)
      else
        && Loaded(c, s, f, u, t, g, r)
        && (Loads(c, s, f) ==> UpdateDone(c, u, f, server, save, t, g, r))
  {
    CurrentStays(c, s, f);
    hide Reload, RoundTrips, Lookup, Caught, UpdateDone, Valid, ReloadIfChanged, Current, Readable;
    var u := Current(c, s, f);
    if server.name == name && c.valid(server) && Loads(c, s, f) {
      UpdateFrom(c, u, f, server, save);
      assert UpdateServer(c, s, f, name, server, save) == UpdateServer(c, u, f, name, server, save);
    }
  }

  // ---------------------------------------------------------------------
  // Removing
  // ---------------------------------------------------------------------

  /** The one definition of that name is gone, the others close up. */
  ghost predicate RemovedAt(before: seq<Server>, after: seq<Server>, name: string, i: nat) {
    && i < |before| && before[i].name == name && after == before[..i] + before[i + 1..]
    && forall j :: 0 <= j < |before| && j != i ==> before[j].name != name
  }

  lemma {:induction false} WithoutAbsent(servers: seq<Server>, name: string)
    requires forall j :: 0 <= j < |servers| ==> servers[j].name != name
    ensures Without(servers, name) == servers
  {
    if servers != [] {
      WithoutAbsent(servers[1..], name);
      assert servers == [servers[0]] + servers[1..];
    }
  }

  lemma {:induction false} WithoutAt(servers: seq<Server>, name: string, i: nat)
    requires i < |servers| && servers[i].name == name
    requires forall j :: 0 <= j < |servers| && j != i ==> servers[j].name != name
    ensures Without(servers, name) == servers[..i] + servers[i + 1..]
  {
    if i == 0 {
      WithoutAbsent(servers[1..], name);
    } else {
      var rest := servers[1..];
      assert forall j :: 0 <= j < |rest| && j != i - 1 ==> rest[j] == servers[j + 1];
      WithoutAt(rest, name, i - 1);
      TakenOut(servers, i);
    }
  }

  lemma {:induction false} TakenOut(servers: seq<Server>, i: nat)
    requires 0 < i < |servers|
    ensures servers[..i] + servers[i + 1..] == [servers[0]] + (servers[1..][..i - 1] + servers[1..][i..])
  {
  }

  /** The definition and the client go first; the enablement follows in memory, then in its file. */
  ghost predicate RemoveDone(c: Codec, u: State, f: Files, name: string, save: Save, disabling: Save,
                             t: State, g: Files, r: Result<()>)
  {
    if Lookup(u.global, name).None? then t == u && g == f && r == Err(Unknown)
    else if !save.Saved? then t == u && r == Err(Io) && g.project == f.project && Failed(f.global, g.global, save)
    else
      && (exists i: nat :: RemovedAt(u.global, t.global, name, i))
      && LoadGlobal(c, g.global) == Some(t.global)
      && EnablementSet(u, t, name, false) && Stopped(u, t, {name})
      && if name in u.project.enabled && !disabling.Saved? then r == Err(Io) && Failed(f.project, g.project, disabling)
         else r == Ok(()) && InStep(c, t, g) && (name !in u.project.enabled ==> g.project == f.project)
  }

  lemma {:induction false} RemovedIs(c: Codec, u: State, name: string)
    requires Valid(c, u) && Lookup(u.global, name).Some?
    ensures exists i: nat :: RemovedAt(u.global, Without(u.global, name), name, i)
  {
    FaithfulServers(c, u);
    LookupPosition(u.global, name);
    var i := Position(u.global, name);
    WithoutAt(u.global, name, i);
    assert RemovedAt(u.global, Without(u.global, name), name, i);
  }

  lemma {:induction false} RemoveFrom(c: Codec, u: State, f: Files, name: string, save: Save, disabling: Save)
    requires RoundTrips(c) && Valid(c, u) && UpToDate(u, f)
    ensures var (t, g, r) := RemoveServer(c, u, f, name, save, disabling);
      RemoveDone(c, u, f, name, save, disabling, t, g, r)
  {
    WithoutSame(u.global, name);
    if Lookup(u.global, name).Some? && save.Saved? {
      RemoveKeeps(c, u, f, name, save, disabling);
      RemovedIs(c, u, name);
      RemovedLoads(c, u, f, name);
      hide Reload, RoundTrips, LoadGlobal, LoadProject, Lookup, Without, RemovedAt;
      RemovedBoth(c, u, f, name, disabling);
    } else {
      hide Reload, RoundTrips, LoadGlobal, LoadProject, Lookup, Without, RemovedAt;
    }
  }

  /** What a removal does once its definition is saved away. */
  lemma {:induction false} RemovedBoth(c: Codec, u: State, f: Files, name: string, disabling: Save)
    requires UpToDate(u, f) && Without(u.global, name) != u.global
    ensures var (t, g, r) := RemoveServer(c, u, f, name, Saved, disabling);
      && t.global == Without(u.global, name) && g.global == Some(c.renderGlobal(t.global))
      && EnablementSet(u, t, name, false) && Stopped(u, t, {name})
      && if name in u.project.enabled && !disabling.Saved? then r == Err(Io) && Failed(f.project, g.project, disabling)
         else r == Ok(()) && (name !in u.project.enabled ==> g.project == f.project)
  {
    hide Reload, LoadGlobal, LoadProject, Lookup, Without;
  }

  lemma {:induction false} RemovedLoads(c: Codec, u: State, f: Files, name: string)
    requires RoundTrips(c) && Valid(c, u)
    ensures LoadGlobal(c, Some(c.renderGlobal(Without(u.global, name)))) == Some(Without(u.global, name))
  {
    FaithfulServers(c, u);
    WithoutFits(c, u, name);
  }

  lemma {:induction false} RemoveTold(c: Codec, s: State, f: Files, name: string, save: Save, disabling: Save)
    requires RoundTrips(c) && Valid(c, s)
    ensures var (t, g, r) := RemoveServer(c, s, f, name, save, disabling);
      var u := Current(c, s, f);
      && Loaded(c, s, f, u, t, g, r)
      && (Loads(c, s, f) ==> RemoveDone(c, u, f, name, save, disabling, t, g, r))
  {
    CurrentStays(c, s, f);
    hide Reload, RoundTrips, Lookup, Caught, RemoveDone, Valid, ReloadIfChanged, Current, Readable, Without;
    var u := Current(c, s, f);
    if Loads(c, s, f) {
      RemoveFrom(c, u, f, name, save, disabling);
      assert RemoveServer(c, s, f, name, save, disabling) == RemoveServer(c, u, f, name, save, disabling);
    }
  }

  // ---------------------------------------------------------------------
  // Requests
  // ---------------------------------------------------------------------

  /** A request goes to the definition; a server that is run takes a client, started from it unless one runs. */
  ghost predicate Routed(u: State, config: Server, starts: bool, t: State, r: Result<Server>) {
    if !config.stdio then t == u && r == Ok(config)
    else if config.name in u.clients then t == u && r == Ok(config)
    else if starts then r == Ok(config) && t == u.(clients := u.clients[config.name := config])
    else t == u && r == Err(StartFailed)
  }

  lemma {:induction false} RouteTold(c: Codec, u: State, name: string, starts: bool)
    requires Valid(c, u) && Lookup(u.global, name).Some?
    ensures var config := Lookup(u.global, name).value;
      var (t, r) := Route(u, config, starts);
      config.name == name && Routed(u, config, starts, t, r)
  {
    LookupPosition(u.global, name);
    hide LoadGlobal, LoadProject, Lookup;
  }

  /** Which requests are refused, and for what; every other one goes through. */
  ghost predicate CallDone(u: State, name: string, tool: string, starts: bool, t: State, r: Result<Server>) {
    match Lookup(u.global, name)
    case None => t == u && r == Err(Unknown)
    case Some(config) =>
      && (name !in u.project.enabled <==> r == Err(NotEnabled))
      && (r == Err(ToolNotAllowed) <==>
            name in u.project.enabled && config.allowedTools != [] && tool !in config.allowedTools)
      && (if r == Err(NotEnabled) || r == Err(ToolNotAllowed) then t == u else Routed(u, config, starts, t, r))
  }

  lemma {:induction false} CallTold(c: Codec, s: State, f: Files, name: string, tool: string, starts: bool)
    requires Valid(c, s)
    ensures var (t, r) := Call(c, s, f, name, tool, starts);
      var u := Current(c, s, f);
      && Loaded(c, s, f, u, t, f, r)
      && (Loads(c, s, f) ==> CallDone(u, name, tool, starts, t, r))
    ensures var (t, r) := Probe(c, s, f, name, starts);
      var u := Current(c, s, f);
      && Loaded(c, s, f, u, t, f, r)
      && (Loads(c, s, f) ==>
           if Lookup(u.global, name).None? then t == u && r == Err(Unknown)
           else Routed(u, Lookup(u.global, name).value, starts, t, r))
  {
    CurrentStays(c, s, f);
    hide Reload, Lookup, Caught, Valid, ReloadIfChanged, Current, Readable, Route;
    var u := Current(c, s, f);
    if Loads(c, s, f) && Lookup(u.global, name).Some? {
      RouteTold(c, u, name, starts);
    }
  }

  // ---------------------------------------------------------------------
  // Starting
  // ---------------------------------------------------------------------

  /** An older entry joins the definitions: its name is not taken there, nor by an entry ahead of it. */
  ghost predicate Joins(global: seq<Server>, legacy: seq<Legacy>, i: nat) {
    && i < |legacy| && Lookup(global, legacy[i].config.name).None?
    && forall j: nat :: j < i ==> legacy[j].config.name != legacy[i].config.name
  }

  /** The definitions are those of the file with the older entries that join behind them, in order. */
  ghost predicate Joined(global: seq<Server>, legacy: seq<Legacy>, merged: seq<Server>, at: seq<nat>) {
    && |merged| == |global| + |at| && merged[..|global|] == global
    && (forall j, k :: 0 <= j < k < |at| ==> at[j] < at[k])
    && (forall i: nat :: i in at <==> Joins(global, legacy, i))
    && (forall j :: 0 <= j < |at| ==> at[j] < |legacy| && merged[|global| + j] == legacy[at[j]].config)
  }

  lemma {:induction false} JoinsSnoc(global: seq<Server>, legacy: seq<Legacy>, e: Legacy, i: nat)
    ensures i < |legacy| ==> (Joins(global, legacy + [e], i) <==> Joins(global, legacy, i))
    ensures i > |legacy| ==> !Joins(global, legacy + [e], i)
  {
    hide Lookup;
    assert forall j: nat :: j < |legacy| ==> (legacy + [e])[j] == legacy[j];
  }

  /** A name is found among the merged definitions if it is in the file or in an entry. */
  lemma {:induction false} MergedHas(global: seq<Server>, legacy: seq<Legacy>, name: string)
    ensures Lookup(WithLegacy(global, legacy), name).Some?
      <==> Lookup(global, name).Some? || exists j: nat :: j < |legacy| && legacy[j].config.name == name
  {
    if legacy != [] {
      var init, e := legacy[..|legacy| - 1], legacy[|legacy| - 1];
      MergedHas(global, init, name);
      LookupSnoc(WithLegacy(global, init), e.config, name);
      hide Lookup;
      assert legacy[|legacy| - 1].config.name == e.config.name;
      assert forall j: nat :: j < |init| ==> init[j] == legacy[j];
      if j: nat :| j < |legacy| && legacy[j].config.name == name {
        assert j < |init| ==> init[j].config.name == name;
      }
      if j: nat :| j < |init| && init[j].config.name == name {
        assert legacy[j].config.name == name;
      }
    }
  }

  lemma {:induction false} JoinsLast(global: seq<Server>, legacy: seq<Legacy>, e: Legacy)
    ensures Joins(global, legacy + [e], |legacy|) <==> Lookup(WithLegacy(global, legacy), e.config.name).None?
  {
    MergedHas(global, legacy, e.config.name);
    hide Lookup;
    var all := legacy + [e];
    assert all[|legacy|] == e;
    assert forall j: nat :: j < |legacy| ==> all[j] == legacy[j];
  }

  lemma {:induction false} MergeTold(global: seq<Server>, legacy: seq<Legacy>) returns (at: seq<nat>)
    ensures Joined(global, legacy, WithLegacy(global, legacy), at)
  {
    at := [];
    if legacy != [] {
      var init, e := legacy[..|legacy| - 1], legacy[|legacy| - 1];
      at := MergeTold(global, init);
      assert legacy == init + [e];
      JoinsLast(global, init, e);
      forall i: nat
        ensures i < |init| ==> (Joins(global, legacy, i) <==> Joins(global, init, i))
        ensures i > |init| ==> !Joins(global, legacy, i)
      {
        JoinsSnoc(global, init, e, i);
      }
      JoinedWithin(global, init, WithLegacy(global, init), at);
      hide Joins, Lookup;
      if Joins(global, legacy, |init|) {
        at := at + [|init|];
      }
    }
  }

  lemma {:induction false} JoinedWithin(global: seq<Server>, legacy: seq<Legacy>, merged: seq<Server>, at: seq<nat>)
    requires Joined(global, legacy, merged, at)
    ensures forall i: nat :: i in at ==> i < |legacy|
  {
    hide Lookup;
  }

  /** An enabled older entry of that name. */
  ghost predicate EnabledOnce(legacy: seq<Legacy>, n: string) {
    exists j: nat :: j < |legacy| && legacy[j].enabled && legacy[j].config.name == n
  }

  /** What a start makes of two readable files. */
  ghost predicate StartDone(c: Codec, f: Files, global: seq<Server>, project: Project, save: Save, projectSave: Save,
                            s: Option<State>, g: Files, at: seq<nat>)
  {
    && Joined(global, project.legacy, global + Entries(project.legacy, at), at)
    && (s.None? <==> (at != [] && !save.Saved?) || (project.legacy != [] && !projectSave.Saved?))
    && (at == [] ==> g.global == f.global)
    && (project.legacy == [] ==> g == f)
    && (at != [] && !save.Saved? ==> g.project == f.project && Failed(f.global, g.global, save))
    && (project.legacy != [] && !projectSave.Saved? && (at == [] || save.Saved?) ==>
          Failed(f.project, g.project, projectSave))
    && (s.Some? ==>
          && s.value.global == global + Entries(project.legacy, at)
          && (forall n :: n in s.value.project.enabled <==> n in project.enabled || EnabledOnce(project.legacy, n))
          && s.value.project.legacy == [] && s.value.clients == map[] && InStep(c, s.value, g))
  }

  function Entries(legacy: seq<Legacy>, at: seq<nat>): (servers: seq<Server>)
    ensures |servers| == |at|
  {
    seq(|at|, j requires 0 <= j < |at| => if at[j] < |legacy| then legacy[at[j]].config else Server("", false, "", []))
  }

  lemma {:induction false} JoinedIs(global: seq<Server>, legacy: seq<Legacy>, merged: seq<Server>, at: seq<nat>)
    requires Joined(global, legacy, merged, at)
    ensures merged == global + Entries(legacy, at)
  {
    hide Joins;
    var joined := global + Entries(legacy, at);
    forall k | 0 <= k < |merged|
      ensures merged[k] == joined[k]
    {
      if k < |global| {
        assert merged[k] == merged[..|global|][k];
      } else {
        var j := k - |global|;
        assert merged[|global| + j] == legacy[at[j]].config;
      }
    }
  }

  lemma {:induction false} NoneJoin(global: seq<Server>, merged: seq<Server>, legacy: seq<Legacy>, at: seq<nat>)
    requires Joined(global, legacy, merged, at)
    ensures at == [] <==> |merged| <= |global|
    ensures legacy == [] ==> at == []
  {
    hide Lookup;
    if at != [] {
      assert at[0] < |legacy|;
    }
  }

  lemma {:induction false} EnabledTold(enabled: set<string>, legacy: seq<Legacy>)
    ensures forall n :: n in enabled + LegacyEnabled(legacy) <==> n in enabled || EnabledOnce(legacy, n)
  {
    forall n
      ensures n in LegacyEnabled(legacy) <==> EnabledOnce(legacy, n)
    {
    }
  }

  lemma {:induction false} StartFiles(c: Codec, f: Files, save: Save, projectSave: Save)
    requires Readable(c, f)
    ensures var (s, g) := Start(c, f, save, projectSave);
      var global, project := LoadGlobal(c, f.global).value, LoadProject(c, f.project).value;
      var grown := |WithLegacy(global, project.legacy)| > |global|;
      && (project.legacy == [] ==> s.Some? && g == f)
      && (project.legacy != [] ==> (s.None? <==> (grown && !save.Saved?) || !projectSave.Saved?))
      && (!grown ==> g.global == f.global)
      && (project.legacy != [] && grown && !save.Saved? ==> g.project == f.project && Failed(f.global, g.global, save))
      && (project.legacy != [] && !projectSave.Saved? && (!grown || save.Saved?) ==>
            Failed(f.project, g.project, projectSave))
  {
    hide LoadGlobal, LoadProject, WithLegacy, LegacyEnabled;
  }

  lemma {:induction false} StartMemory(c: Codec, f: Files, save: Save, projectSave: Save)
    requires Readable(c, f) && Start(c, f, save, projectSave).0.Some?
    ensures var s := Start(c, f, save, projectSave).0.value;
      var global, project := LoadGlobal(c, f.global).value, LoadProject(c, f.project).value;
      && s.global == WithLegacy(global, project.legacy) && s.clients == map[]
      && s.project == Project(project.enabled + LegacyEnabled(project.legacy), [])
  {
    var project := LoadProject(c, f.project).value;
    assert project.legacy == [] ==> project.enabled + LegacyEnabled(project.legacy) == project.enabled;
    hide LoadGlobal, LoadProject, LegacyEnabled;
  }

  /** A start merges older entries into both files and enables what they enabled, and nothing else. */
  lemma {:induction false} StartTold(c: Codec, f: Files, save: Save, projectSave: Save) returns (at: seq<nat>)
    requires RoundTrips(c)
    ensures var (s, g) := Start(c, f, save, projectSave);
      if !Readable(c, f) then s.None? && g == f
      else
        StartDone(c, f, LoadGlobal(c, f.global).value, LoadProject(c, f.project).value, save, projectSave, s, g, at)
  {
    at := [];
    if Readable(c, f) {
      var (s, g) := Start(c, f, save, projectSave);
      var global, project := LoadGlobal(c, f.global).value, LoadProject(c, f.project).value;
      at := MergeTold(global, project.legacy);
      var merged := WithLegacy(global, project.legacy);
      JoinedIs(global, project.legacy, merged, at);
      NoneJoin(global, merged, project.legacy, at);
      EnabledTold(project.enabled, project.legacy);
      StartFiles(c, f, save, projectSave);
      if s.Some? {
        StartValid(c, f, save, projectSave);
        UpToDateInSync(c, s.value, g);
        StartMemory(c, f, save, projectSave);
      }
      hide *;
      StartHere(c, f, global, project, save, projectSave, s, g, at);
    }
  }

  lemma {:induction false} StartHere(c: Codec, f: Files, global: seq<Server>, project: Project, save: Save,
                                     projectSave: Save, s: Option<State>, g: Files, at: seq<nat>)
    requires Joined(global, project.legacy, global + Entries(project.legacy, at), at)
    requires project.legacy == [] ==> s.Some? && g == f && at == []
    requires project.legacy != [] ==> (s.None? <==> (at != [] && !save.Saved?) || !projectSave.Saved?)
    requires at == [] ==> g.global == f.global
    requires at != [] && !save.Saved? ==> g.project == f.project && Failed(f.global, g.global, save)
    requires project.legacy != [] && !projectSave.Saved? && (at == [] || save.Saved?) ==>
      Failed(f.project, g.project, projectSave)
    requires s.Some? ==>
      && s.value.global == global + Entries(project.legacy, at) && s.value.clients == map[]
      && (forall n :: n in s.value.project.enabled <==> n in project.enabled || EnabledOnce(project.legacy, n))
      && s.value.project.legacy == [] && UpToDate(s.value, g) && InSync(c, s.value, g)
    ensures StartDone(c, f, global, project, save, projectSave, s, g, at)
  {
    hide Joined, Entries, EnabledOnce, Failed, UpToDate, InSync;
  }

  /** A save that lost its file shows at the next operation: without definitions, or without enablement. */
  lemma {:induction false} LostForgotten(c: Codec, u: State, f: Files)
    requires Valid(c, u) && UpToDate(u, f)
    ensures f.global.Some? ==>
      Loads(c, u, f.(global := None)) &&
      var v := Current(c, u, f.(global := None));
      v.global == [] && v.clients == map[] && v.project == u.project
    ensures f.project.Some? ==>
      Loads(c, u, f.(project := None)) &&
      var v := Current(c, u, f.(project := None));
      v.global == u.global && v.project.enabled == {} && v.project.legacy == []
      && forall n :: n in v.clients <==> n in u.clients && n !in u.project.enabled
  {
    if f.global.Some? {
      ReloadStops(c, u, f.(global := None));
      hide Reload;
    }
    if f.project.Some? {
      ReloadStops(c, u, f.(project := None));
      hide Reload;
    }
  }
}

/**
 The MCP manager's cache: server definitions and project enablement held in
 memory beside two files others may edit between operations, and the clients
 started from those definitions.

 Models McpManager of crates/openbad-mcp/src/lib.rs: reload, add, update, remove, enable and the client
 lookup, over two files an outside editor may replace between any two operations.
 */
module Mcp {
  import opened Wrappers

  // A definition; `detail` stands for the command, environment and URL.
  datatype Server = Server(name: string, stdio: bool, detail: string, allowedTools: seq<string>)

  datatype Legacy = Legacy(config: Server, enabled: bool)

  datatype Project = Project(enabled: set<string>, legacy: seq<Legacy>)

  // The two files' contents, where they exist.
  datatype Files = Files(global: Option<string>, project: Option<string>)

  // What the manager holds in memory. A client is known by the definition it was
  // started from; a stamp is the content it was taken of.
  datatype State = Memory(
    global: seq<Server>,
    project: Project,
    clients: map<string, Server>,
    globalStamp: Option<string>,
    projectStamp: Option<string>)

  datatype Error = InvalidConfig | Load | Duplicate | Unknown | NotEnabled | ToolNotAllowed | Io | StartFailed
  datatype Result<T> = Ok(value: T) | Err(error: Error)

  datatype ServerState = ServerState(config: Server, enabled: bool)

  // A save that fails leaves the file as it was, or, where renaming over a file
  // is refused, may have removed it.
  datatype Save = Saved | Kept | Lost

  // Writing and reading the two formats, and checking one definition.
  datatype Codec = Codec(
    renderGlobal: seq<Server> -> string,
    parseGlobal: string -> Option<seq<Server>>,
    renderProject: Project -> string,
    parseProject: string -> Option<Project>,
    valid: Server -> bool)

  ghost predicate RoundTrips(c: Codec) {
    && (forall g :: c.parseGlobal(c.renderGlobal(g)) == Some(g))
    && (forall p :: c.parseProject(c.renderProject(p)) == Some(p))
  }

  // ---------------------------------------------------------------------
  // Loading
  // ---------------------------------------------------------------------

  predicate NamesDistinct(servers: seq<Server>) {
    forall i, j :: 0 <= i < j < |servers| ==> servers[i].name != servers[j].name
  }

  predicate AllValid(c: Codec, servers: seq<Server>) {
    forall i :: 0 <= i < |servers| ==> c.valid(servers[i])
  }

  function LoadGlobal(c: Codec, file: Option<string>): Option<seq<Server>> {
    if file.None? then Some([])
    else
      match c.parseGlobal(file.value)
      case None => None
      case Some(servers) => if AllValid(c, servers) && NamesDistinct(servers) then Some(servers) else None
  }

  function LoadProject(c: Codec, file: Option<string>): Option<Project> {
    if file.None? then Some(Project({}, []))
    else
      match c.parseProject(file.value)
      case None => None
      case Some(p) => if forall i :: 0 <= i < |p.legacy| ==> c.valid(p.legacy[i].config) then Some(p) else None
  }

  function Lookup(servers: seq<Server>, name: string): Option<Server> {
    if servers == [] then None
    else if servers[0].name == name then Some(servers[0])
    else Lookup(servers[1..], name)
  }

  // ---------------------------------------------------------------------
  // Reloading
  // ---------------------------------------------------------------------

  function RedefinedNames(global: seq<Server>, loaded: seq<Server>): set<string> {
    set i | 0 <= i < |loaded| && Lookup(global, loaded[i].name) != Some(loaded[i]) :: loaded[i].name
  }

  function RemovedNames(global: seq<Server>, loaded: seq<Server>): set<string> {
    set i | 0 <= i < |global| && Lookup(loaded, global[i].name).None? :: global[i].name
  }

  /** Names whose clients may no longer run: redefined, removed, or no longer enabled. */
  function Changed(global: seq<Server>, loaded: seq<Server>, project: Project, loadedProject: Project): set<string> {
    RedefinedNames(global, loaded) + RemovedNames(global, loaded) + (project.enabled - loadedProject.enabled)
  }

  function Reload(c: Codec, s: State, f: Files): Option<State> {
    match LoadGlobal(c, f.global)
    case None => None
    case Some(loaded) =>
      match LoadProject(c, f.project)
      case None => None
      case Some(loadedProject) =>
        Some(Memory(loaded, loadedProject, s.clients - Changed(s.global, loaded, s.project, loadedProject),
                   f.global, f.project))
  }

  function ReloadIfChanged(c: Codec, s: State, f: Files): Option<State> {
    if s.globalStamp == f.global && s.projectStamp == f.project then Some(s) else Reload(c, s, f)
  }

  // ---------------------------------------------------------------------
  // Saving
  // ---------------------------------------------------------------------

  function AfterSave(file: Option<string>, content: string, save: Save): Option<string> {
    match save
    case Saved => Some(content)
    case Kept => file
    case Lost => None
  }

  /** The file first, then memory and both stamps; nothing in memory if the save failed. */
  function PersistGlobal(c: Codec, s: State, f: Files, updated: seq<Server>, save: Save): (State, Files) {
    var g := f.(global := AfterSave(f.global, c.renderGlobal(updated), save));
    if save.Saved? then (s.(global := updated, globalStamp := g.global, projectStamp := g.project), g) else (s, g)
  }

  function PersistProject(c: Codec, s: State, f: Files, updated: Project, save: Save): (State, Files) {
    var g := f.(project := AfterSave(f.project, c.renderProject(updated), save));
    if save.Saved? then (s.(project := updated, globalStamp := g.global, projectStamp := g.project), g) else (s, g)
  }

  // ---------------------------------------------------------------------
  // Operations
  // ---------------------------------------------------------------------

  function SetEnabled(c: Codec, s0: State, f: Files, name: string, enabled: bool, save: Save)
    : (State, Files, Result<ServerState>)
  {
    match ReloadIfChanged(c, s0, f)
    case None => (s0, f, Err(Load))
    case Some(s) =>
      match Lookup(s.global, name)
      case None => (s, f, Err(Unknown))
      case Some(config) =>
        var updated := Project(if enabled then s.project.enabled + {name} else s.project.enabled - {name}, []);
        var (t, g) := PersistProject(c, s, f, updated, save);
        if !save.Saved? then (t, g, Err(Io))
        else (if enabled then t else t.(clients := t.clients - {name}), g, Ok(ServerState(config, enabled)))
  }

  function AddServer(c: Codec, s0: State, f: Files, server: Server, enable: bool, save: Save, enabling: Save)
    : (State, Files, Result<ServerState>)
  {
    if !c.valid(server) then (s0, f, Err(InvalidConfig))
    else
      match ReloadIfChanged(c, s0, f)
      case None => (s0, f, Err(Load))
      case Some(s) =>
        if Lookup(s.global, server.name).Some? then (s, f, Err(Duplicate))
        else
          var (t, g) := PersistGlobal(c, s, f, s.global + [server], save);
          if !save.Saved? then (t, g, Err(Io))
          else if enable then
            var (u, h, r) := SetEnabled(c, t, g, server.name, true, enabling);
            (u, h, if r.Ok? then Ok(ServerState(server, true)) else r)
          else (t, g, Ok(ServerState(server, false)))
  }

  function Position(servers: seq<Server>, name: string): (i: nat)
    ensures i <= |servers|
    ensures i < |servers| ==> servers[i].name == name
    ensures forall j :: 0 <= j < i ==> servers[j].name != name
  {
    if servers == [] || servers[0].name == name then 0 else 1 + Position(servers[1..], name)
  }

  function UpdateServer(c: Codec, s0: State, f: Files, name: string, server: Server, save: Save)
    : (State, Files, Result<ServerState>)
  {
    if server.name != name || !c.valid(server) then (s0, f, Err(InvalidConfig))
    else
      match ReloadIfChanged(c, s0, f)
      case None => (s0, f, Err(Load))
      case Some(s) =>
        var i := Position(s.global, name);
        if i == |s.global| then (s, f, Err(Unknown))
        else
          var (t, g) := PersistGlobal(c, s, f, s.global[i := server], save);
          if !save.Saved? then (t, g, Err(Io))
          else (t.(clients := t.clients - {name}), g, Ok(ServerState(server, name in t.project.enabled)))
  }

  function Without(servers: seq<Server>, name: string): seq<Server> {
    if servers == [] then []
    else if servers[0].name == name then Without(servers[1..], name)
    else [servers[0]] + Without(servers[1..], name)
  }

  /** The name leaves the project in memory before that file is saved. */
  function RemoveServer(c: Codec, s0: State, f: Files, name: string, save: Save, disabling: Save)
    : (State, Files, Result<()>)
  {
    match ReloadIfChanged(c, s0, f)
    case None => (s0, f, Err(Load))
    case Some(s) =>
      if Without(s.global, name) == s.global then (s, f, Err(Unknown))
      else
        var (t, g) := PersistGlobal(c, s, f, Without(s.global, name), save);
        if !save.Saved? then (t, g, Err(Io))
        else
          var u := t.(clients := t.clients - {name});
          if name !in u.project.enabled then (u, g, Ok(()))
          else
            var dropped := u.(project := u.project.(enabled := u.project.enabled - {name}));
            var (v, h) := PersistProject(c, dropped, g, dropped.project.(legacy := []), disabling);
            (v, h, if disabling.Saved? then Ok(()) else Err(Io))
  }

  /** A cached client is reused whatever the definition passed; otherwise one is started from it. */
  function ClientFor(s: State, server: Server, starts: bool): (State, Result<Server>) {
    if server.name in s.clients then (s, Ok(s.clients[server.name]))
    else if !starts then (s, Err(StartFailed))
    else (s.(clients := s.clients[server.name := server]), Ok(server))
  }

  /** The definition a request goes to: a client's for stdio, the server's own for HTTP. */
  function Route(s: State, server: Server, starts: bool): (State, Result<Server>) {
    if server.stdio then ClientFor(s, server, starts) else (s, Ok(server))
  }

  function Probe(c: Codec, s0: State, f: Files, name: string, starts: bool): (State, Result<Server>) {
    match ReloadIfChanged(c, s0, f)
    case None => (s0, Err(Load))
    case Some(s) =>
      match Lookup(s.global, name)
      case None => (s, Err(Unknown))
      case Some(server) => Route(s, server, starts)
  }

  function Call(c: Codec, s0: State, f: Files, name: string, tool: string, starts: bool): (State, Result<Server>) {
    match ReloadIfChanged(c, s0, f)
    case None => (s0, Err(Load))
    case Some(s) =>
      match Lookup(s.global, name)
      case None => (s, Err(Unknown))
      case Some(server) =>
        if name !in s.project.enabled then (s, Err(NotEnabled))
        else if server.allowedTools != [] && tool !in server.allowedTools then (s, Err(ToolNotAllowed))
        else Route(s, server, starts)
  }

  // ---------------------------------------------------------------------
  // The invariant
  // ---------------------------------------------------------------------

  /** Memory is what the stamped contents mean. */
  ghost predicate Faithful(c: Codec, s: State) {
    LoadGlobal(c, s.globalStamp) == Some(s.global) && LoadProject(c, s.projectStamp) == Some(s.project)
  }

  /** Every cached client belongs to a defined server and was started from its definition. */
  ghost predicate ClientsCurrent(s: State) {
    forall n :: n in s.clients ==> s.clients[n].stdio && Lookup(s.global, n) == Some(s.clients[n])
  }

  ghost predicate Valid(c: Codec, s: State) {
    Faithful(c, s) && ClientsCurrent(s)
  }

  /** The files are what the stamps were taken of. */
  predicate UpToDate(s: State, f: Files) {
    s.globalStamp == f.global && s.projectStamp == f.project
  }

  /** Memory equals the files. */
  ghost predicate InSync(c: Codec, s: State, f: Files) {
    LoadGlobal(c, f.global) == Some(s.global) && LoadProject(c, f.project) == Some(s.project)
  }

  lemma {:induction false} LookupPosition(servers: seq<Server>, name: string)
    ensures Lookup(servers, name)
      == if Position(servers, name) < |servers| then Some(servers[Position(servers, name)]) else None
  {
    if servers != [] {
      LookupPosition(servers[1..], name);
    }
  }

  lemma {:induction false} LookupAt(servers: seq<Server>, i: nat)
    requires NamesDistinct(servers) && i < |servers|
    ensures Lookup(servers, servers[i].name) == Some(servers[i])
  {
    LookupPosition(servers, servers[i].name);
    var p := Position(servers, servers[i].name);
    assert p == i;
  }

  lemma LoadedDistinct(c: Codec, file: Option<string>)
    ensures LoadGlobal(c, file).Some? ==>
      NamesDistinct(LoadGlobal(c, file).value) && AllValid(c, LoadGlobal(c, file).value)
  {
  }

  // ---------------------------------------------------------------------
  // What each operation keeps
  // ---------------------------------------------------------------------

  lemma {:induction false} UnchangedSame(global: seq<Server>, loaded: seq<Server>, p: Project, q: Project, n: string)
    requires Lookup(global, n).Some? && n !in Changed(global, loaded, p, q) && NamesDistinct(loaded)
    ensures Lookup(loaded, n) == Lookup(global, n)
  {
    LookupPosition(global, n);
    LookupPosition(loaded, n);
    var i, j := Position(global, n), Position(loaded, n);
    if j == |loaded| {
      RemovedChanged(global, loaded, p, q, i);
    } else if loaded[j] != global[i] {
      RedefinedChanged(global, loaded, p, q, j);
    }
  }

  lemma {:induction false} RemovedChanged(global: seq<Server>, loaded: seq<Server>, p: Project, q: Project, i: nat)
    ensures i < |global| && Lookup(loaded, global[i].name).None? ==> global[i].name in Changed(global, loaded, p, q)
  {
  }

  lemma {:induction false} RedefinedChanged(global: seq<Server>, loaded: seq<Server>, p: Project, q: Project, j: nat)
    ensures j < |loaded| && Lookup(global, loaded[j].name) != Some(loaded[j]) ==>
      loaded[j].name in Changed(global, loaded, p, q)
  {
  }

  lemma ReloadKeeps(c: Codec, s: State, f: Files)
    requires Valid(c, s) && Reload(c, s, f).Some?
    ensures Valid(c, Reload(c, s, f).value) && UpToDate(Reload(c, s, f).value, f)
  {
    var t := Reload(c, s, f).value;
    LoadedDistinct(c, f.global);
    forall n | n in t.clients
      ensures t.clients[n].stdio && Lookup(t.global, n) == Some(t.clients[n])
    {
      UnchangedSame(s.global, t.global, s.project, t.project, n);
    }
  }

  /** What every operation starts with: memory catches up with the files, or the operation fails. */
  lemma Refreshed(c: Codec, s: State, f: Files)
    requires Valid(c, s) && ReloadIfChanged(c, s, f).Some?
    ensures Valid(c, ReloadIfChanged(c, s, f).value) && UpToDate(ReloadIfChanged(c, s, f).value, f)
  {
    hide Reload, Valid;
    if !UpToDate(s, f) {
      ReloadKeeps(c, s, f);
    }
  }

  /** A saved definition list loads as itself; clients must fit it. */
  lemma GlobalPersisted(c: Codec, s: State, f: Files, updated: seq<Server>, clients: map<string, Server>)
    requires RoundTrips(c) && Faithful(c, s) && UpToDate(s, f)
    requires AllValid(c, updated) && NamesDistinct(updated)
    requires ClientsCurrent(s.(global := updated, clients := clients))
    ensures var (t, g) := PersistGlobal(c, s, f, updated, Saved);
      Valid(c, t.(clients := clients)) && UpToDate(t, g)
  {
  }

  lemma ProjectPersisted(c: Codec, s: State, f: Files, updated: Project, clients: map<string, Server>)
    requires RoundTrips(c) && LoadGlobal(c, s.globalStamp) == Some(s.global) && UpToDate(s, f)
    requires updated.legacy == [] && ClientsCurrent(s.(clients := clients))
    ensures var (t, g) := PersistProject(c, s, f, updated, Saved);
      Valid(c, t.(clients := clients)) && UpToDate(t, g)
  {
  }

  lemma {:induction false} SetEnabledKeeps(c: Codec, s: State, f: Files, name: string, enabled: bool, save: Save)
    requires RoundTrips(c) && Valid(c, s)
    ensures var (t, g, r) := SetEnabled(c, s, f, name, enabled, save);
      && Valid(c, t)
      && (ReloadIfChanged(c, s, f).Some? && save != Lost ==> UpToDate(t, g))
      && (r.Ok? ==> UpToDate(t, g) && (name in t.project.enabled <==> enabled) && Lookup(t.global, name).Some?)
  {
    hide Reload, RoundTrips, LoadGlobal, LoadProject;
    if ReloadIfChanged(c, s, f).Some? {
      Refreshed(c, s, f);
      var u := ReloadIfChanged(c, s, f).value;
      var updated := Project(if enabled then u.project.enabled + {name} else u.project.enabled - {name}, []);
      var clients := if enabled then u.clients else u.clients - {name};
      ProjectPersisted(c, u, f, updated, clients);
      var t := PersistProject(c, u, f, updated, Saved).0;
      assert t.(clients := u.clients) == t;
    }
  }

  lemma {:induction false} LookupSnoc(servers: seq<Server>, server: Server, n: string)
    ensures Lookup(servers + [server], n)
      == if Lookup(servers, n).Some? then Lookup(servers, n) else if server.name == n then Some(server) else None
  {
    if servers == [] {
      assert [] + [server] == [server] && [server][1..] == [];
    } else {
      assert (servers + [server])[1..] == servers[1..] + [server];
      LookupSnoc(servers[1..], server, n);
    }
  }

  lemma AppendFits(c: Codec, s: State, server: Server)
    requires NamesDistinct(s.global) && AllValid(c, s.global) && c.valid(server)
    requires Lookup(s.global, server.name).None? && ClientsCurrent(s)
    ensures var updated := s.global + [server];
      && NamesDistinct(updated) && AllValid(c, updated)
      && ClientsCurrent(s.(global := updated))
  {
    LookupPosition(s.global, server.name);
    forall n | n in s.clients
      ensures Lookup(s.global + [server], n) == Some(s.clients[n])
    {
      LookupSnoc(s.global, server, n);
    }
  }

  lemma FaithfulServers(c: Codec, s: State)
    requires Faithful(c, s)
    ensures NamesDistinct(s.global) && AllValid(c, s.global)
  {
    LoadedDistinct(c, s.globalStamp);
  }

  lemma AddKeeps(c: Codec, s: State, f: Files, server: Server, enable: bool, save: Save, enabling: Save)
    requires RoundTrips(c) && Valid(c, s)
    ensures var (t, g, r) := AddServer(c, s, f, server, enable, save, enabling);
      && Valid(c, t)
      && (r.Ok? ==> UpToDate(t, g) && Lookup(t.global, server.name) == Some(server))
      && (r == Err(Duplicate) ==> UpToDate(t, g) && Lookup(t.global, server.name).Some?)
      && (c.valid(server) && ReloadIfChanged(c, s, f).Some? && save != Lost && enabling != Lost ==> UpToDate(t, g))
  {
    hide Reload, RoundTrips, LoadGlobal, LoadProject, SetEnabled, NamesDistinct, AllValid;
    if c.valid(server) && ReloadIfChanged(c, s, f).Some? {
      Refreshed(c, s, f);
      var u := ReloadIfChanged(c, s, f).value;
      FaithfulServers(c, u);
      if Lookup(u.global, server.name).None? {
        AppendFits(c, u, server);
        GlobalPersisted(c, u, f, u.global + [server], u.clients);
        LookupSnoc(u.global, server, server.name);
        var (t, g) := PersistGlobal(c, u, f, u.global + [server], Saved);
        assert t.(clients := u.clients) == t && t.global == u.global + [server];
        SetEnabledKeeps(c, t, g, server.name, true, enabling);
        EnablingKeepsServers(c, t, g, server.name, enabling);
      }
    }
  }

  lemma EnablingKeepsServers(c: Codec, s: State, f: Files, name: string, save: Save)
    ensures UpToDate(s, f) ==> SetEnabled(c, s, f, name, true, save).0.global == s.global
    ensures UpToDate(s, f) ==> SetEnabled(c, s, f, name, true, save).2 != Err(Duplicate)
  {
  }

  lemma ReplaceFits(c: Codec, s: State, i: nat, server: Server)
    requires NamesDistinct(s.global) && AllValid(c, s.global) && c.valid(server)
    requires i < |s.global| && s.global[i].name == server.name && ClientsCurrent(s)
    ensures var updated := s.global[i := server];
      && NamesDistinct(updated) && AllValid(c, updated)
      && Lookup(updated, server.name) == Some(server)
      && ClientsCurrent(s.(global := updated, clients := s.clients - {server.name}))
  {
    var updated := s.global[i := server];
    LookupAt(updated, i);
    forall n | n in s.clients - {server.name}
      ensures Lookup(updated, n) == Some(s.clients[n])
    {
      LookupPosition(s.global, n);
      var p := Position(s.global, n);
      LookupAt(updated, p);
    }
  }

  lemma {:induction false} UpdateKeeps(c: Codec, s: State, f: Files, name: string, server: Server, save: Save)
    requires RoundTrips(c) && Valid(c, s)
    ensures var (t, g, r) := UpdateServer(c, s, f, name, server, save);
      && Valid(c, t)
      && (r.Ok? ==> UpToDate(t, g) && Lookup(t.global, name) == Some(server) && name !in t.clients)
      && (server.name == name && c.valid(server) && ReloadIfChanged(c, s, f).Some? && save != Lost ==> UpToDate(t, g))
  {
    hide Reload, RoundTrips, LoadGlobal, LoadProject, NamesDistinct, AllValid, Lookup;
    if server.name == name && c.valid(server) && ReloadIfChanged(c, s, f).Some? {
      Refreshed(c, s, f);
      var u := ReloadIfChanged(c, s, f).value;
      FaithfulServers(c, u);
      var i := Position(u.global, name);
      if i < |u.global| {
        ReplaceFits(c, u, i, server);
        GlobalPersisted(c, u, f, u.global[i := server], u.clients - {name});
      }
    }
  }

  lemma {:induction false} LookupWithout(servers: seq<Server>, name: string, n: string)
    ensures Lookup(Without(servers, name), n) == if n == name then None else Lookup(servers, n)
  {
    if servers != [] {
      LookupWithout(servers[1..], name, n);
      if servers[0].name != name {
        assert ([servers[0]] + Without(servers[1..], name))[1..] == Without(servers[1..], name);
      }
    }
  }

  lemma {:induction false} WithoutMember(servers: seq<Server>, name: string, x: Server)
    ensures x in Without(servers, name) <==> x in servers && x.name != name
  {
    if servers != [] {
      WithoutMember(servers[1..], name, x);
      assert servers == [servers[0]] + servers[1..];
    }
  }

  lemma {:induction false} WithoutDistinct(servers: seq<Server>, name: string)
    requires NamesDistinct(servers)
    ensures NamesDistinct(Without(servers, name))
  {
    if servers != [] {
      WithoutDistinct(servers[1..], name);
      var rest := Without(servers[1..], name);
      forall j | 0 <= j < |rest|
        ensures rest[j].name != servers[0].name
      {
        WithoutMember(servers[1..], name, rest[j]);
        var k :| 0 <= k < |servers[1..]| && servers[1..][k] == rest[j];
        assert servers[k + 1] == rest[j];
      }
    }
  }

  lemma {:induction false} WithoutFits(c: Codec, s: State, name: string)
    requires NamesDistinct(s.global) && AllValid(c, s.global) && ClientsCurrent(s)
    ensures var updated := Without(s.global, name);
      && NamesDistinct(updated) && AllValid(c, updated)
      && ClientsCurrent(s.(global := updated, clients := s.clients - {name}))
  {
    var updated := Without(s.global, name);
    WithoutDistinct(s.global, name);
    forall i | 0 <= i < |updated|
      ensures c.valid(updated[i])
    {
      WithoutMember(s.global, name, updated[i]);
    }
    forall n | n in s.clients - {name}
      ensures Lookup(updated, n) == Some(s.clients[n])
    {
      LookupWithout(s.global, name, n);
    }
  }

  /** The removal whose second save fails: the name is gone from memory and still in the file. */
  ghost predicate HalfRemoved(c: Codec, s: State, f: Files, name: string, save: Save, disabling: Save) {
    var u := ReloadIfChanged(c, s, f);
    && u.Some? && Lookup(u.value.global, name).Some? && save.Saved?
    && name in u.value.project.enabled && !disabling.Saved?
  }

  lemma {:induction false} WithoutSame(servers: seq<Server>, name: string)
    ensures |Without(servers, name)| <= |servers|
    ensures Without(servers, name) == servers <==> Lookup(servers, name).None?
  {
    if servers != [] {
      WithoutSame(servers[1..], name);
      if servers[0].name != name {
        assert servers == [servers[0]] + servers[1..];
        var rest := Without(servers[1..], name);
        assert ([servers[0]] + rest)[1..] == rest;
      }
    }
  }

  /** Removal keeps the invariant if and only if it did not stop between its two saves. */
  lemma {:induction false} RemoveKeeps(c: Codec, s: State, f: Files, name: string, save: Save, disabling: Save)
    requires RoundTrips(c) && Valid(c, s)
    ensures var (t, g, r) := RemoveServer(c, s, f, name, save, disabling);
      && (Valid(c, t) <==> !HalfRemoved(c, s, f, name, save, disabling))
      && (r.Ok? ==> UpToDate(t, g) && Lookup(t.global, name).None? && name !in t.project.enabled && name !in t.clients)
      && ClientsCurrent(t)
      && (ReloadIfChanged(c, s, f).Some? && save != Lost && disabling != Lost ==> UpToDate(t, g))
  {
    hide Reload, RoundTrips, LoadGlobal, LoadProject, NamesDistinct, AllValid, Lookup, Without;
    if ReloadIfChanged(c, s, f).Some? {
      Refreshed(c, s, f);
      var u := ReloadIfChanged(c, s, f).value;
      FaithfulServers(c, u);
      WithoutSame(u.global, name);
      if Lookup(u.global, name).Some? && save.Saved? {
        var updated := Without(u.global, name);
        WithoutFits(c, u, name);
        LookupWithout(u.global, name, name);
        GlobalPersisted(c, u, f, updated, u.clients - {name});
        var (t, g) := PersistGlobal(c, u, f, updated, Saved);
        var v := t.(clients := u.clients - {name});
        if name in u.project.enabled {
          var dropped := v.(project := v.project.(enabled := v.project.enabled - {name}));
          ProjectPersisted(c, dropped, g, dropped.project.(legacy := []), v.clients);
          var w := PersistProject(c, dropped, g, dropped.project.(legacy := []), Saved).0;
          assert w.(clients := v.clients) == w;
        }
      }
    }
  }

  /**
   After such a removal that left the project file in place, the stamps still
   match the files, so the next operation reloads nothing and goes on with an
   enablement the file does not have.
   */
  lemma HalfRemovedStays(c: Codec, s: State, f: Files, name: string)
    requires RoundTrips(c) && Valid(c, s) && HalfRemoved(c, s, f, name, Saved, Kept)
    ensures var (t, g, r) := RemoveServer(c, s, f, name, Saved, Kept);
      && r == Err(Io)
      && ReloadIfChanged(c, t, g) == Some(t)
      && LoadProject(c, g.project).Some? && name in LoadProject(c, g.project).value.enabled
      && name !in t.project.enabled
  {
    Refreshed(c, s, f);
    WithoutSame(ReloadIfChanged(c, s, f).value.global, name);
    hide Reload, RoundTrips, LoadGlobal, Lookup, Without;
  }

  lemma {:induction false} RouteKeeps(c: Codec, s: State, name: string, starts: bool)
    requires Valid(c, s) && Lookup(s.global, name).Some?
    ensures var (t, r) := Route(s, Lookup(s.global, name).value, starts);
      && Valid(c, t)
      && t.globalStamp == s.globalStamp && t.projectStamp == s.projectStamp
      && t.global == s.global && t.project == s.project
      && (r.Ok? ==> Some(r.value) == Lookup(s.global, name))
  {
    LookupPosition(s.global, name);
    hide LoadGlobal, LoadProject, Lookup;
  }

  /** Every request goes to the definition the files hold for that name, and calls only to enabled servers. */
  lemma {:induction false} RequestsCurrent(c: Codec, s: State, f: Files, name: string, tool: string, starts: bool)
    requires Valid(c, s)
    ensures var (t, r) := Probe(c, s, f, name, starts);
      && Valid(c, t)
      && (ReloadIfChanged(c, s, f).Some? ==> UpToDate(t, f))
      && (r.Ok? ==> UpToDate(t, f) && Some(r.value) == Lookup(t.global, name))
    ensures var (t, r) := Call(c, s, f, name, tool, starts);
      && Valid(c, t)
      && (ReloadIfChanged(c, s, f).Some? ==> UpToDate(t, f))
      && (r.Ok? ==>
           && UpToDate(t, f) && Some(r.value) == Lookup(t.global, name)
           && name in t.project.enabled
           && (r.value.allowedTools == [] || tool in r.value.allowedTools))
  {
    hide Reload, Valid, Route;
    if ReloadIfChanged(c, s, f).Some? {
      Refreshed(c, s, f);
      var u := ReloadIfChanged(c, s, f).value;
      if Lookup(u.global, name).Some? {
        RouteKeeps(c, u, name, starts);
      }
    }
  }

  // ---------------------------------------------------------------------
  // Starting
  // ---------------------------------------------------------------------

  /** Definitions of an older project file join the global ones, unless their names are taken there. */
  function WithLegacy(global: seq<Server>, legacy: seq<Legacy>): seq<Server> {
    if legacy == [] then global
    else
      var before := WithLegacy(global, legacy[..|legacy| - 1]);
      var config := legacy[|legacy| - 1].config;
      if Lookup(before, config.name).Some? then before else before + [config]
  }

  function LegacyEnabled(legacy: seq<Legacy>): set<string> {
    set i | 0 <= i < |legacy| && legacy[i].enabled :: legacy[i].config.name
  }

  /** Moves an older project file's definitions over: the global file first, then the project's. */
  function Migrate(c: Codec, f: Files, global: seq<Server>, project: Project, save: Save, projectSave: Save)
    : (Option<(seq<Server>, Project)>, Files)
  {
    if project.legacy == [] then (Some((global, project)), f)
    else
      var merged := WithLegacy(global, project.legacy);
      var changed := |merged| > |global|;
      var g := if changed then f.(global := AfterSave(f.global, c.renderGlobal(merged), save)) else f;
      if changed && !save.Saved? then (None, g)
      else
        var updated := Project(project.enabled + LegacyEnabled(project.legacy), []);
        var h := g.(project := AfterSave(g.project, c.renderProject(updated), projectSave));
        (if projectSave.Saved? then Some((merged, updated)) else None, h)
  }

  function Start(c: Codec, f: Files, save: Save, projectSave: Save): (Option<State>, Files) {
    var global, project := LoadGlobal(c, f.global), LoadProject(c, f.project);
    if global.None? || project.None? then (None, f)
    else
      var (migrated, g) := Migrate(c, f, global.value, project.value, save, projectSave);
      match migrated
      case None => (None, g)
      case Some(pair) => (Some(Memory(pair.0, pair.1, map[], g.global, g.project)), g)
  }

  lemma {:induction false} LegacyFits(c: Codec, global: seq<Server>, legacy: seq<Legacy>)
    requires NamesDistinct(global) && AllValid(c, global)
    requires forall i :: 0 <= i < |legacy| ==> c.valid(legacy[i].config)
    ensures var merged := WithLegacy(global, legacy);
      && NamesDistinct(merged) && AllValid(c, merged)
      && |merged| >= |global| && merged[..|global|] == global
      && forall i :: 0 <= i < |legacy| ==> Lookup(merged, legacy[i].config.name).Some?
  {
    if legacy != [] {
      var init, config := legacy[..|legacy| - 1], legacy[|legacy| - 1].config;
      LegacyFits(c, global, init);
      var before := WithLegacy(global, init);
      if Lookup(before, config.name).None? {
        AppendFits(c, Memory(before, Project({}, []), map[], None, None), config);
      }
      forall i | 0 <= i < |legacy|
        ensures Lookup(WithLegacy(global, legacy), legacy[i].config.name).Some?
      {
        LookupSnoc(before, config, legacy[i].config.name);
        assert i < |init| ==> legacy[i] == init[i];
      }
    }
  }

  /** A manager that starts is in step with the files; nothing it found in them is lost. */
  lemma StartValid(c: Codec, f: Files, save: Save, projectSave: Save)
    requires RoundTrips(c) && Start(c, f, save, projectSave).0.Some?
    ensures var (s, g) := Start(c, f, save, projectSave);
      && Valid(c, s.value) && UpToDate(s.value, g)
      && LoadGlobal(c, f.global).Some? && LoadGlobal(c, f.global).value <= s.value.global
      && LoadProject(c, f.project).Some? && LoadProject(c, f.project).value.enabled <= s.value.project.enabled
      && forall i :: 0 <= i < |LoadProject(c, f.project).value.legacy| ==>
           Lookup(s.value.global, LoadProject(c, f.project).value.legacy[i].config.name).Some?
  {
    LoadedDistinct(c, f.global);
    var global, legacy := LoadGlobal(c, f.global).value, LoadProject(c, f.project).value.legacy;
    LegacyFits(c, global, legacy);
    var merged := WithLegacy(global, legacy);
    assert |merged| == |global| ==> merged[..|global|] == merged;
    hide WithLegacy, LegacyEnabled, Lookup;
  }

  // ---------------------------------------------------------------------
  // Any run
  // ---------------------------------------------------------------------

  datatype Step =
    | External(files: Files)
    | AddStep(server: Server, enable: bool, save: Save, enabling: Save)
    | UpdateStep(name: string, server: Server, save: Save)
    | RemoveStep(name: string, save: Save, disabling: Save)
    | EnableStep(name: string, enabled: bool, save: Save)
    | ProbeStep(name: string, starts: bool)
    | CallStep(name: string, tool: string, starts: bool)

  function Take(c: Codec, s: State, f: Files, step: Step): (State, Files) {
    match step
    case External(files) => (s, files)
    case AddStep(server, enable, save, enabling) =>
      var (t, g, _) := AddServer(c, s, f, server, enable, save, enabling); (t, g)
    case UpdateStep(name, server, save) => var (t, g, _) := UpdateServer(c, s, f, name, server, save); (t, g)
    case RemoveStep(name, save, disabling) => var (t, g, _) := RemoveServer(c, s, f, name, save, disabling); (t, g)
    case EnableStep(name, enabled, save) => var (t, g, _) := SetEnabled(c, s, f, name, enabled, save); (t, g)
    case ProbeStep(name, starts) => (Probe(c, s, f, name, starts).0, f)
    case CallStep(name, tool, starts) => (Call(c, s, f, name, tool, starts).0, f)
  }

  function Run(c: Codec, s: State, f: Files, steps: seq<Step>): (State, Files) {
    if steps == [] then (s, f)
    else
      var (t, g) := Run(c, s, f, steps[..|steps| - 1]);
      Take(c, t, g, steps[|steps| - 1])
  }

  ghost predicate StopsHalfway(c: Codec, s: State, f: Files, step: Step) {
    step.RemoveStep? && HalfRemoved(c, s, f, step.name, step.save, step.disabling)
  }

  ghost predicate NeverHalfway(c: Codec, s: State, f: Files, steps: seq<Step>) {
    forall i :: 0 <= i < |steps| ==>
      var (t, g) := Run(c, s, f, steps[..i]);
      !StopsHalfway(c, t, g, steps[i])
  }

  lemma StepValid(c: Codec, s: State, f: Files, step: Step)
    requires RoundTrips(c) && Valid(c, s)
    ensures Valid(c, Take(c, s, f, step).0) <==> !StopsHalfway(c, s, f, step)
  {
    hide Valid, RoundTrips, HalfRemoved, AddServer, UpdateServer, RemoveServer, SetEnabled, Probe, Call;
    match step {
      case External(_) =>
      case AddStep(server, enable, save, enabling) => AddKeeps(c, s, f, server, enable, save, enabling);
      case UpdateStep(name, server, save) => UpdateKeeps(c, s, f, name, server, save);
      case RemoveStep(name, save, disabling) => RemoveKeeps(c, s, f, name, save, disabling);
      case EnableStep(name, enabled, save) => SetEnabledKeeps(c, s, f, name, enabled, save);
      case ProbeStep(name, starts) => RequestsCurrent(c, s, f, name, "", starts);
      case CallStep(name, tool, starts) => RequestsCurrent(c, s, f, name, tool, starts);
    }
  }

  /** An operation that accepts its arguments and can load the files, if they changed. */
  ghost predicate Loads(c: Codec, s: State, f: Files, step: Step) {
    !step.External? && ReloadIfChanged(c, s, f).Some? &&
    match step
    case AddStep(server, _, _, _) => c.valid(server)
    case UpdateStep(name, server, _) => server.name == name && c.valid(server)
    case _ => true
  }

  /** No save of the operation removes a file without replacing it. */
  predicate LosesNothing(step: Step) {
    match step
    case AddStep(_, _, save, enabling) => save != Lost && enabling != Lost
    case UpdateStep(_, _, save) => save != Lost
    case RemoveStep(_, save, disabling) => save != Lost && disabling != Lost
    case EnableStep(_, _, save) => save != Lost
    case _ => true
  }

  /** After such an operation, whether it succeeded or not, memory equals the files. */
  lemma StepInSync(c: Codec, s: State, f: Files, step: Step)
    requires RoundTrips(c) && Valid(c, s) && !StopsHalfway(c, s, f, step)
    requires Loads(c, s, f, step) && LosesNothing(step)
    ensures var (t, g) := Take(c, s, f, step);
      UpToDate(t, g) && InSync(c, t, g)
  {
    StepValid(c, s, f, step);
    hide Valid, RoundTrips, HalfRemoved, AddServer, UpdateServer, RemoveServer, SetEnabled, Probe, Call, ReloadIfChanged,
      UpToDate, InSync;
    match step {
      case External(_) =>
      case AddStep(server, enable, save, enabling) => AddKeeps(c, s, f, server, enable, save, enabling);
      case UpdateStep(name, server, save) => UpdateKeeps(c, s, f, name, server, save);
      case RemoveStep(name, save, disabling) => RemoveKeeps(c, s, f, name, save, disabling);
      case EnableStep(name, enabled, save) => SetEnabledKeeps(c, s, f, name, enabled, save);
      case ProbeStep(name, starts) => RequestsCurrent(c, s, f, name, "", starts);
      case CallStep(name, tool, starts) => RequestsCurrent(c, s, f, name, tool, starts);
    }
    var (t, g) := Take(c, s, f, step);
    UpToDateInSync(c, t, g);
  }

  lemma UpToDateInSync(c: Codec, s: State, f: Files)
    ensures Valid(c, s) && UpToDate(s, f) ==> InSync(c, s, f)
  {
  }

  /** So it is after each of its operations in any run without such a removal. */
  lemma {:induction false} RunInSync(c: Codec, s: State, f: Files, steps: seq<Step>, i: nat)
    requires RoundTrips(c) && Valid(c, s) && NeverHalfway(c, s, f, steps) && i < |steps|
    requires var (t, g) := Run(c, s, f, steps[..i]);
      Loads(c, t, g, steps[i]) && LosesNothing(steps[i])
    ensures var (t, g) := Run(c, s, f, steps[..i + 1]);
      UpToDate(t, g) && InSync(c, t, g)
  {
    var init := steps[..i];
    hide Valid, RoundTrips, Take, StopsHalfway, Loads, LosesNothing, UpToDate, InSync;
    forall k | 0 <= k < i
      ensures var (t, g) := Run(c, s, f, init[..k]); !StopsHalfway(c, t, g, init[k])
    {
      assert init[..k] == steps[..k];
    }
    RunValid(c, s, f, init);
    var (t, g) := Run(c, s, f, init);
    StepInSync(c, t, g, steps[i]);
    assert steps[..i + 1][..i] == init;
  }

  /**
   Through any run of operations and outside edits between them, memory stays what
   the stamped files mean and every cached client runs a current definition, as
   long as no removal stops between its two saves.
   */
  lemma {:induction false} RunValid(c: Codec, s: State, f: Files, steps: seq<Step>)
    requires RoundTrips(c) && Valid(c, s) && NeverHalfway(c, s, f, steps)
    ensures Valid(c, Run(c, s, f, steps).0)
  {
    hide Valid, RoundTrips, Take, StopsHalfway;
    if steps != [] {
      var n := |steps| - 1;
      var init := steps[..n];
      forall i | 0 <= i < n
        ensures var (t, g) := Run(c, s, f, init[..i]); !StopsHalfway(c, t, g, init[i])
      {
        assert init[..i] == steps[..i];
      }
      RunValid(c, s, f, init);
      var (t, g) := Run(c, s, f, init);
      StepValid(c, t, g, steps[n]);
    }
  }

  // ---------------------------------------------------------------------
  // The manager
  // ---------------------------------------------------------------------

  /** The two files; anyone may write them between operations. */
  class ConfigFiles {
    var global: Option<string>
    var project: Option<string>

    constructor (f: Files)
      ensures State() == f
    {
      global, project := f.global, f.project;
    }

    function State(): Files
      reads this
    {
      Files(global, project)
    }
  }

  class McpManager {
    const codec: Codec
    const files: ConfigFiles
    var global: seq<Server>
    var project: Project
    var clients: map<string, Server>
    var globalStamp: Option<string>
    var projectStamp: Option<string>

    function State(): State
      reads this
    {
      Memory(global, project, clients, globalStamp, projectStamp)
    }

    constructor (codec: Codec, files: ConfigFiles, s: State)
      ensures State() == s && this.codec == codec && this.files == files
    {
      this.codec, this.files := codec, files;
      global, project, clients := s.global, s.project, s.clients;
      globalStamp, projectStamp := s.globalStamp, s.projectStamp;
    }

    static method MigrateLegacy(
      codec: Codec, files: ConfigFiles, global: seq<Server>, project: Project, save: Save, projectSave: Save)
      returns (r: Option<(seq<Server>, Project)>)
      modifies files
      ensures (r, files.State()) == Migrate(codec, old(files.State()), global, project, save, projectSave)
    {
      hide Lookup;
      if project.legacy == [] {
        return Some((global, project));
      }
      var servers, enabled := global, project.enabled;
      for i := 0 to |project.legacy|
        invariant servers == WithLegacy(global, project.legacy[..i])
        invariant enabled == project.enabled + LegacyEnabled(project.legacy[..i])
        invariant files.State() == old(files.State())
      {
        assert project.legacy[..i + 1][..i] == project.legacy[..i];
        EnabledSnoc(project.legacy, i);
        var entry := project.legacy[i];
        if Lookup(servers, entry.config.name).None? {
          servers := servers + [entry.config];
        }
        if entry.enabled {
          enabled := enabled + {entry.config.name};
        }
      }
      assert project.legacy[..|project.legacy|] == project.legacy;
      if |servers| > |global| {
        files.global := AfterSave(files.global, codec.renderGlobal(servers), save);
        if !save.Saved? {
          return None;
        }
      }
      var updated := Project(enabled, []);
      files.project := AfterSave(files.project, codec.renderProject(updated), projectSave);
      if !projectSave.Saved? {
        return None;
      }
      return Some((servers, updated));
    }

    /** Loads both files, migrates, and starts a manager. */
    static method Open(codec: Codec, files: ConfigFiles, save: Save, projectSave: Save) returns (m: Option<McpManager>)
      modifies files
      ensures var (s, g) := Start(codec, old(files.State()), save, projectSave);
        && files.State() == g
        && (m.Some? <==> s.Some?)
        && (m.Some? ==> fresh(m.value) && m.value.State() == s.value && m.value.codec == codec && m.value.files == files)
    {
      hide LoadGlobal, LoadProject, Migrate;
      var global, project := LoadGlobal(codec, files.global), LoadProject(codec, files.project);
      if global.None? || project.None? {
        return None;
      }
      var migrated := MigrateLegacy(codec, files, global.value, project.value, save, projectSave);
      if migrated.None? {
        return None;
      }
      var manager := new McpManager(codec, files,
        Memory(migrated.value.0, migrated.value.1, map[], files.global, files.project));
      return Some(manager);
    }

    method RecordStamps()
      modifies this`globalStamp, this`projectStamp
      ensures globalStamp == files.global && projectStamp == files.project
    {
      globalStamp, projectStamp := files.global, files.project;
    }

    method StopClient(name: string)
      modifies this`clients
      ensures clients == old(clients) - {name}
    {
      clients := clients - {name};
    }

    method Redefined(loaded: seq<Server>) returns (names: set<string>)
      ensures names == RedefinedNames(global, loaded)
    {
      hide Lookup;
      names := {};
      for i := 0 to |loaded|
        invariant names == set j | 0 <= j < i && Lookup(global, loaded[j].name) != Some(loaded[j]) :: loaded[j].name
      {
        if Lookup(global, loaded[i].name) != Some(loaded[i]) {
          names := names + {loaded[i].name};
        }
      }
    }

    method Removed(loaded: seq<Server>) returns (names: set<string>)
      ensures names == RemovedNames(global, loaded)
    {
      hide Lookup;
      names := {};
      for i := 0 to |global|
        invariant names == set j | 0 <= j < i && Lookup(loaded, global[j].name).None? :: global[j].name
      {
        if Lookup(loaded, global[i].name).None? {
          names := names + {global[i].name};
        }
      }
    }

    method ReloadNow() returns (ok: bool)
      modifies this
      ensures var r := Reload(codec, old(State()), files.State());
        ok == r.Some? && State() == if ok then r.value else old(State())
    {
      hide LoadGlobal, LoadProject, Lookup, RedefinedNames, RemovedNames;
      var loaded := LoadGlobal(codec, files.global);
      if loaded.None? {
        return false;
      }
      var loadedProject := LoadProject(codec, files.project);
      if loadedProject.None? {
        return false;
      }
      var redefined := Redefined(loaded.value);
      var removed := Removed(loaded.value);
      var changed := redefined + removed + (project.enabled - loadedProject.value.enabled);
      global, project := loaded.value, loadedProject.value;
      clients := clients - changed;
      RecordStamps();
      ok := true;
    }

    method ReloadWhenChanged() returns (ok: bool)
      modifies this
      ensures var r := ReloadIfChanged(codec, old(State()), files.State());
        ok == r.Some? && State() == if ok then r.value else old(State())
    {
      if globalStamp == files.global && projectStamp == files.project {
        return true;
      }
      ok := ReloadNow();
    }

    /** Every definition with this project's enablement. */
    method Servers() returns (r: Result<seq<ServerState>>)
      modifies this
      ensures var s := ReloadIfChanged(codec, old(State()), files.State());
        && State() == (if s.Some? then s.value else old(State()))
        && (r.Ok? <==> s.Some?)
        && (r.Ok? ==>
             && |r.value| == |s.value.global|
             && forall i :: 0 <= i < |r.value| ==>
                  r.value[i] == ServerState(s.value.global[i], s.value.global[i].name in s.value.project.enabled))
    {
      var ok := ReloadWhenChanged();
      if !ok {
        return Err(Load);
      }
      r := Ok(seq(|global|, i requires 0 <= i < |global| reads this =>
        ServerState(global[i], global[i].name in project.enabled)));
    }

    method PersistServers(updated: seq<Server>, save: Save) returns (ok: bool)
      modifies this, files
      ensures (State(), files.State()) == PersistGlobal(codec, old(State()), old(files.State()), updated, save)
      ensures ok == save.Saved?
    {
      files.global := AfterSave(files.global, codec.renderGlobal(updated), save);
      if !save.Saved? {
        return false;
      }
      global := updated;
      RecordStamps();
      ok := true;
    }

    method PersistEnabled(updated: Project, save: Save) returns (ok: bool)
      modifies this, files
      ensures (State(), files.State()) == PersistProject(codec, old(State()), old(files.State()), updated, save)
      ensures ok == save.Saved?
    {
      files.project := AfterSave(files.project, codec.renderProject(updated), save);
      if !save.Saved? {
        return false;
      }
      project := updated;
      RecordStamps();
      ok := true;
    }

    method SetServerEnabled(name: string, enabled: bool, save: Save) returns (r: Result<ServerState>)
      modifies this, files
      ensures (State(), files.State(), r) == SetEnabled(codec, old(State()), old(files.State()), name, enabled, save)
    {
      hide Reload;
      var ok := ReloadWhenChanged();
      if !ok {
        return Err(Load);
      }
      var config := Lookup(global, name);
      if config.None? {
        return Err(Unknown);
      }
      var names := if enabled then project.enabled + {name} else project.enabled - {name};
      var saved := PersistEnabled(Project(names, []), save);
      if !saved {
        return Err(Io);
      }
      if !enabled {
        StopClient(name);
      }
      return Ok(ServerState(config.value, enabled));
    }

    method Add(server: Server, enable: bool, save: Save, enabling: Save) returns (r: Result<ServerState>)
      modifies this, files
      ensures (State(), files.State(), r)
        == AddServer(codec, old(State()), old(files.State()), server, enable, save, enabling)
    {
      hide Reload, SetEnabled, Lookup;
      if !codec.valid(server) {
        return Err(InvalidConfig);
      }
      var ok := ReloadWhenChanged();
      if !ok {
        return Err(Load);
      }
      if Lookup(global, server.name).Some? {
        return Err(Duplicate);
      }
      var saved := PersistServers(global + [server], save);
      if !saved {
        return Err(Io);
      }
      if enable {
        r := SetServerEnabled(server.name, true, enabling);
        if r.Err? {
          return r;
        }
      }
      return Ok(ServerState(server, enable));
    }

    method Update(name: string, server: Server, save: Save) returns (r: Result<ServerState>)
      modifies this, files
      ensures (State(), files.State(), r) == UpdateServer(codec, old(State()), old(files.State()), name, server, save)
    {
      hide Reload;
      if server.name != name || !codec.valid(server) {
        return Err(InvalidConfig);
      }
      var ok := ReloadWhenChanged();
      if !ok {
        return Err(Load);
      }
      var existing := Position(global, name);
      if existing == |global| {
        return Err(Unknown);
      }
      var saved := PersistServers(global[existing := server], save);
      if !saved {
        return Err(Io);
      }
      StopClient(name);
      return Ok(ServerState(server, name in project.enabled));
    }

    method Remove(name: string, save: Save, disabling: Save) returns (r: Result<()>)
      modifies this, files
      ensures (State(), files.State(), r)
        == RemoveServer(codec, old(State()), old(files.State()), name, save, disabling)
    {
      hide Reload, Without;
      var ok := ReloadWhenChanged();
      if !ok {
        return Err(Load);
      }
      var updated := Without(global, name);
      if updated == global {
        return Err(Unknown);
      }
      var saved := PersistServers(updated, save);
      if !saved {
        return Err(Io);
      }
      StopClient(name);
      if name in project.enabled {
        project := project.(enabled := project.enabled - {name});
        var disabled := PersistEnabled(project.(legacy := []), disabling);
        if !disabled {
          return Err(Io);
        }
      }
      return Ok(());
    }

    method Client(server: Server, starts: bool) returns (r: Result<Server>)
      modifies this`clients
      ensures (State(), r) == ClientFor(old(State()), server, starts)
    {
      if server.name in clients {
        return Ok(clients[server.name]);
      }
      if !starts {
        return Err(StartFailed);
      }
      clients := clients[server.name := server];
      return Ok(server);
    }

    method CallTool(name: string, tool: string, starts: bool) returns (r: Result<Server>)
      modifies this
      ensures (State(), r) == Call(codec, old(State()), files.State(), name, tool, starts)
    {
      hide Reload, Lookup;
      var ok := ReloadWhenChanged();
      if !ok {
        return Err(Load);
      }
      var server := Lookup(global, name);
      if server.None? {
        return Err(Unknown);
      }
      if name !in project.enabled {
        return Err(NotEnabled);
      }
      if server.value.allowedTools != [] && tool !in server.value.allowedTools {
        return Err(ToolNotAllowed);
      }
      if !server.value.stdio {
        return Ok(server.value);
      }
      r := Client(server.value, starts);
    }

    method ProbeServer(name: string, starts: bool) returns (r: Result<Server>)
      modifies this
      ensures (State(), r) == Probe(codec, old(State()), files.State(), name, starts)
    {
      hide Reload, Lookup;
      var ok := ReloadWhenChanged();
      if !ok {
        return Err(Load);
      }
      var server := Lookup(global, name);
      if server.None? {
        return Err(Unknown);
      }
      if !server.value.stdio {
        return Ok(server.value);
      }
      r := Client(server.value, starts);
    }
  }

  lemma EnabledSnoc(legacy: seq<Legacy>, i: nat)
    requires i < |legacy|
    ensures LegacyEnabled(legacy[..i + 1])
      == LegacyEnabled(legacy[..i]) + if legacy[i].enabled then {legacy[i].config.name} else {}
  {
    assert forall j :: 0 <= j < i ==> legacy[..i + 1][j] == legacy[..i][j];
    assert legacy[..i + 1][i] == legacy[i];
    forall n | n in LegacyEnabled(legacy[..i])
      ensures n in LegacyEnabled(legacy[..i + 1])
    {
      var j :| 0 <= j < i && legacy[..i][j].enabled && legacy[..i][j].config.name == n;
      assert legacy[..i + 1][j].enabled;
    }
  }
}

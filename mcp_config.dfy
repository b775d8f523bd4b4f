/** The MCP server list of src/components/ui/mcp-config-dialog.tsx: the
    servers of the dialog and the new-server form, each edit building a new
    list or form from the old one. */
module McpConfig {
  import opened Text

  datatype ServerStatus = Connected | Disconnected | Connecting

  /** A value in a server's `config` object. */
  datatype ConfigValue = TextSetting(text: string) | ListSetting(items: seq<string>) | FlagSetting(flag: bool)

  datatype Server = Server(
    id: string, name: string, url: string, status: ServerStatus, description: string,
    capabilities: seq<string>, config: map<string, ConfigValue>)

  /** The new-server form. */
  datatype Form = Form(name: string, url: string, description: string,
                       capabilities: seq<string>, config: map<string, ConfigValue>)

  const EmptyForm: Form := Form("", "", "", [], map[])

  datatype Dialog = Dialog(servers: seq<Server>, form: Form)

  const InitialServers: seq<Server> := [
    Server("filesystem", "Filesystem MCP", "mcp://filesystem", Connected,
           "File system operations and management", ["read", "write", "list", "delete"],
           map["rootPath" := TextSetting("/workspace"),
               "allowedExtensions" := ListSetting([".txt", ".md", ".json", ".py"]),
               "maxFileSize" := TextSetting("10MB")]),
    Server("database", "Database MCP", "mcp://postgresql", Disconnected,
           "Database query and management operations", ["query", "schema", "backup"],
           map["host" := TextSetting("localhost"), "port" := TextSetting("5432"),
               "database" := TextSetting("ai_agent_db"), "ssl" := FlagSetting(true)])]

  predicate NoDuplicates<T(==)>(s: seq<T>) {
    forall i, j :: 0 <= i < j < |s| ==> s[i] != s[j]
  }

  /** `addCapability`: a non-empty capability not yet listed is appended. */
  function AddCapability(caps: seq<string>, capability: string): (r: seq<string>)
    ensures capability != "" && capability !in caps ==> r == caps + [capability]
    ensures capability == "" || capability in caps ==> r == caps
  {
    if capability != "" && capability !in caps then caps + [capability] else caps
  }

  /** The capability list stays free of duplicates and of empty entries. */
  lemma AddCapabilityKeepsListClean(caps: seq<string>, capability: string)
    requires NoDuplicates(caps) && "" !in caps
    ensures NoDuplicates(AddCapability(caps, capability)) && "" !in AddCapability(caps, capability)
  {
  }

  /** `removeCapability`: the filter that drops every equal entry. */
  function RemoveCapability(caps: seq<string>, capability: string): (r: seq<string>)
    ensures capability !in r
    ensures forall c :: c in r <==> c in caps && c != capability
    ensures |r| <= |caps|
  {
    if caps == [] then []
    else (if caps[0] == capability then [] else [caps[0]]) + RemoveCapability(caps[1..], capability)
  }

  /** Removing a capability that was just added restores the list. */
  lemma {:induction false} RemoveUndoesAdd(caps: seq<string>, capability: string)
    requires capability !in caps
    ensures RemoveCapability(AddCapability(caps, capability), capability) == caps
  {
    RemoveAbsentKeepsOrder(caps, capability);
    RemoveDistributes(caps, [capability], capability);
  }

  lemma {:induction false} RemoveAbsentKeepsOrder(caps: seq<string>, capability: string)
    requires capability !in caps
    ensures RemoveCapability(caps, capability) == caps
  {
    if caps != [] {
      assert caps[0] in caps;
      assert forall c :: c in caps[1..] ==> c in caps;
      RemoveAbsentKeepsOrder(caps[1..], capability);
    }
  }

  lemma {:induction false} RemoveDistributes(a: seq<string>, b: seq<string>, capability: string)
    ensures RemoveCapability(a + b, capability) == RemoveCapability(a, capability) + RemoveCapability(b, capability)
  {
    if a == [] {
      assert a + b == b;
    } else {
      assert (a + b)[0] == a[0];
      assert (a + b)[1..] == a[1..] + b;
      RemoveDistributes(a[1..], b, capability);
    }
  }

  /** `addServer`: with a name and a url, the form becomes a disconnected
      server (its id the clock's decimal text) and the form is reset;
      otherwise nothing changes. */
  function AddServer(d: Dialog, now: nat): (r: Dialog)
    ensures d.form.name == "" || d.form.url == "" ==> r == d
    ensures d.form.name != "" && d.form.url != "" ==>
              && r.form == EmptyForm
              && r.servers == d.servers + [Server(NatToString(now), d.form.name, d.form.url, Disconnected,
                                                  d.form.description, d.form.capabilities, d.form.config)]
  {
    if d.form.name != "" && d.form.url != "" then
      var f := d.form;
      Dialog(d.servers + [Server(NatToString(now), f.name, f.url, Disconnected, f.description, f.capabilities, f.config)],
             EmptyForm)
    else d
  }

  /** `removeServer`: every server with the id is dropped. */
  function RemoveServer(servers: seq<Server>, id: string): (r: seq<Server>)
    ensures forall s :: s in r <==> s in servers && s.id != id
    ensures |r| <= |servers|
  {
    if servers == [] then []
    else (if servers[0].id == id then [] else [servers[0]]) + RemoveServer(servers[1..], id)
  }

  /** Removing the server just added, under an id no other server has,
      restores the list. */
  lemma {:induction false} RemoveUndoesAddServer(servers: seq<Server>, s: Server)
    requires forall t :: t in servers ==> t.id != s.id
    ensures RemoveServer(servers + [s], s.id) == servers
  {
    if servers == [] {
      assert servers + [s] == [s];
    } else {
      assert (servers + [s])[1..] == servers[1..] + [s];
      assert servers[0] in servers;
      assert forall t :: t in servers[1..] ==> t in servers;
      RemoveUndoesAddServer(servers[1..], s);
    }
  }

  /** `connected` becomes `disconnected`; anything else becomes `connected`. */
  function Toggled(status: ServerStatus): ServerStatus {
    if status == Connected then Disconnected else Connected
  }

  /** `toggleServerStatus`: only the matching servers change, and only in status. */
  function ToggleServerStatus(servers: seq<Server>, id: string): (r: seq<Server>)
    ensures |r| == |servers|
    ensures forall i :: 0 <= i < |servers| ==>
              r[i] == if servers[i].id == id then servers[i].(status := Toggled(servers[i].status)) else servers[i]
  {
    seq(|servers|, i requires 0 <= i < |servers| =>
      if servers[i].id == id then servers[i].(status := Toggled(servers[i].status)) else servers[i])
  }

  /** Toggling twice restores every server that was connected or
      disconnected; a connecting server ends up disconnected. */
  lemma ToggleTwice(servers: seq<Server>, id: string)
    ensures forall i :: 0 <= i < |servers| && servers[i].status != Connecting ==>
              ToggleServerStatus(ToggleServerStatus(servers, id), id)[i] == servers[i]
    ensures forall i :: 0 <= i < |servers| && servers[i].id == id && servers[i].status == Connecting ==>
              ToggleServerStatus(ToggleServerStatus(servers, id), id)[i].status == Disconnected
  {
  }

  /** The "Active" badge: the number of connected servers. */
  function ActiveCount(servers: seq<Server>): (n: nat)
    ensures n <= |servers|
  {
    if servers == [] then 0
    else ActiveCount(servers[..|servers| - 1]) + (if servers[|servers| - 1].status == Connected then 1 else 0)
  }

  /** The number of servers with the id and the given connectedness. */
  function CountMatching(servers: seq<Server>, id: string, connected: bool): nat {
    if servers == [] then 0
    else CountMatching(servers[..|servers| - 1], id, connected)
         + (var s := servers[|servers| - 1]; if s.id == id && (s.status == Connected) == connected then 1 else 0)
  }

  /** A toggle adds to the active count the matching servers that were not
      connected and takes away the matching ones that were. */
  lemma {:induction false} ToggleChangesActiveCount(servers: seq<Server>, id: string)
    ensures ActiveCount(ToggleServerStatus(servers, id))
            == ActiveCount(servers) + CountMatching(servers, id, false) - CountMatching(servers, id, true)
  {
    if servers != [] {
      var init := servers[..|servers| - 1];
      ToggleChangesActiveCount(init, id);
      assert ToggleServerStatus(servers, id)[..|servers| - 1] == ToggleServerStatus(init, id);
    }
  }

  /** With unique ids, toggling a listed server moves the count by one. */
  lemma ToggleOneServer(servers: seq<Server>, i: nat)
    requires i < |servers|
    requires forall a, b :: 0 <= a < b < |servers| ==> servers[a].id != servers[b].id
    ensures servers[i].status == Connected ==>
              ActiveCount(ToggleServerStatus(servers, servers[i].id)) == ActiveCount(servers) - 1
    ensures servers[i].status != Connected ==>
              ActiveCount(ToggleServerStatus(servers, servers[i].id)) == ActiveCount(servers) + 1
  {
    ToggleChangesActiveCount(servers, servers[i].id);
    CountMatchingUnique(servers, i);
  }

  lemma {:induction false} CountMatchingUnique(servers: seq<Server>, i: nat)
    requires i < |servers|
    requires forall a, b :: 0 <= a < b < |servers| ==> servers[a].id != servers[b].id
    ensures CountMatching(servers, servers[i].id, servers[i].status == Connected) == 1
    ensures CountMatching(servers, servers[i].id, servers[i].status != Connected) == 0
  {
    var init := servers[..|servers| - 1];
    if i < |servers| - 1 {
      CountMatchingUnique(init, i);
    } else {
      CountMatchingAbsent(init, servers[i].id, true);
      CountMatchingAbsent(init, servers[i].id, false);
    }
  }

  lemma {:induction false} CountMatchingAbsent(servers: seq<Server>, id: string, connected: bool)
    requires forall a :: 0 <= a < |servers| ==> servers[a].id != id
    ensures CountMatching(servers, id, connected) == 0
  {
    if servers != [] {
      CountMatchingAbsent(servers[..|servers| - 1], id, connected);
    }
  }

  /** The dialog opens with one connected and one disconnected server. */
  lemma InitialActiveCount()
    ensures ActiveCount(InitialServers) == 1
  {
    assert InitialServers[..1][..0] == [];
  }
}

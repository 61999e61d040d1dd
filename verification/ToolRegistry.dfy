/** The tool registry: a row per tool with its identifiers as a JSON array, and a row per identifier.

    As for the runs, each transaction is given as a function from tables to tables and as a method of
    the store, which inserts row by row and rolls back at the first row that is refused. */
module ToolRegistry {
  import opened Wrappers
  import opened Normalizer
  import opened Sorting
  import Text

  datatype ToolRow = ToolRow(
    toolId: string, name: string, toolType: string, canonicalUrl: string, identifiers: seq<Identifier>,
    createdAt: int, updatedAt: int)

  datatype Owned = Owned(toolId: string, canonicalUrl: string)

  // PRIMARY KEY (namespace, value) of `tool_external_ids`
  type IdKey = (string, string)

  datatype Registry = Registry(tools: map<string, ToolRow>, ids: map<IdKey, Owned>, aliases: set<(string, string)>)

  datatype RegistryError = InvalidRequest | UniqueViolation | Database

  datatype CreateToolRequest = CreateToolRequest(
    toolId: string, name: string, toolType: string, canonicalUrl: string, identifiers: seq<Identifier>, aliases: seq<string>)

  // ── Validation ──

  // `validate_required`
  predicate Required(s: string, maxLength: nat) {
    Text.Trim(s) != "" && |Text.Trim(s)| <= maxLength
  }

  // The identifier's key is that of its normalised canonical URL.
  predicate KeyChecked(id: Identifier) {
    NormalizeUrl(id.canonicalUrl).Some? && Key(NormalizeUrl(id.canonicalUrl).value) == Key(id)
  }

  function CountKey(identifiers: seq<Identifier>, key: string): nat {
    if identifiers == [] then 0
    else CountKey(identifiers[1..], key) + (if Key(identifiers[0]) == key then 1 else 0)
  }

  // `validate_create_tool`
  predicate CreateRequestOk(r: CreateToolRequest) {
    && ToolIdFormat(r.toolId)
    && Required(r.name, 200) && Required(r.canonicalUrl, 2048)
    && 1 <= |r.identifiers| <= 20
    && (forall id :: id in r.identifiers ==> KeyChecked(id))
    && CountKey(r.identifiers, r.toolId) == 1
    && (exists id :: id in r.identifiers && Text.Trim(id.canonicalUrl) == Text.Trim(r.canonicalUrl))
    && (forall i, j :: 0 <= i < j < |r.aliases| ==> Text.Lower(r.aliases[i]) != Text.Lower(r.aliases[j]))
    && (forall a :: a in r.aliases ==> Required(a, 200))
  }

  function RowOf(r: CreateToolRequest, now: int): ToolRow {
    ToolRow(Text.Trim(r.toolId), Text.Trim(r.name), r.toolType, Text.Trim(r.canonicalUrl), r.identifiers, now, now)
  }

  // ── Transactions ──

  // SQLite's `length(trim(x)) > 0`, which trims spaces.
  predicate Checked(s: string) { exists i :: 0 <= i < |s| && s[i] != ' ' }

  predicate IdChecked(id: Identifier) { Checked(id.ns) && Checked(id.value) && Checked(id.canonicalUrl) }

  function InsertId(ids: map<IdKey, Owned>, id: Identifier, toolId: string): Result<map<IdKey, Owned>, RegistryError> {
    if !IdChecked(id) then Err(Database)
    else if (id.ns, id.value) in ids then Err(UniqueViolation)
    else Ok(ids[(id.ns, id.value) := Owned(toolId, id.canonicalUrl)])
  }

  function InsertIds(ids: map<IdKey, Owned>, identifiers: seq<Identifier>, toolId: string): Result<map<IdKey, Owned>, RegistryError> {
    if identifiers == [] then Ok(ids)
    else
      match InsertIds(ids, identifiers[..|identifiers| - 1], toolId)
      case Err(error) => Err(error)
      case Ok(before) => InsertId(before, identifiers[|identifiers| - 1], toolId)
  }

  function InsertAliases(rows: set<(string, string)>, aliases: seq<string>, toolId: string): Result<set<(string, string)>, RegistryError> {
    if aliases == [] then Ok(rows)
    else
      match InsertAliases(rows, aliases[..|aliases| - 1], toolId)
      case Err(error) => Err(error)
      case Ok(before) =>
        var alias := aliases[|aliases| - 1];
        if !Checked(alias) || (toolId, alias) in before then Err(Database) else Ok(before + {(toolId, alias)})
  }

  // `Repository::create_tool`
  function CreateToolTx(g: Registry, tool: ToolRow, aliases: seq<string>): Result<Registry, RegistryError> {
    if !Checked(tool.toolId) || !Checked(tool.name) || !Checked(tool.canonicalUrl) || tool.identifiers == [] then Err(Database)
    else if tool.toolId in g.tools then Err(UniqueViolation)
    else
      match InsertIds(g.ids, tool.identifiers, tool.toolId)
      case Err(error) => Err(error)
      case Ok(ids) =>
        match InsertAliases(g.aliases, aliases, tool.toolId)
        case Err(error) => Err(error)
        case Ok(rows) => Ok(Registry(g.tools[tool.toolId := tool], ids, rows))
  }

  // `Repository::add_external_id`; `tool_external_ids.tool_id` references `tools`.
  function AddExternalIdTx(g: Registry, toolId: string, id: Identifier, now: int): Result<Registry, RegistryError> {
    match InsertId(g.ids, id, toolId)
    case Err(error) => Err(error)
    case Ok(ids) =>
      if toolId !in g.tools then Err(Database)
      else
        var row := g.tools[toolId];
        Ok(g.(ids := ids, tools := g.tools[toolId := row.(identifiers := row.identifiers + [id], updatedAt := now)]))
  }

  function After(g: Registry, r: Result<Registry, RegistryError>): Registry {
    match r case Ok(h) => h case Err(_) => g
  }

  function Keys(ids: seq<Identifier>): set<string> { set id | id in ids :: Key(id) }

  // The tools owning a row whose `namespace || ':' || value` is among the keys.
  function Owners(g: Registry, keys: set<string>): set<string> {
    set p | p in g.ids && p.0 + ":" + p.1 in keys :: g.ids[p].toolId
  }

  // ── The store ──

  class RegistryStore {
    var tools: map<string, ToolRow>
    var ids: map<IdKey, Owned>
    var aliases: set<(string, string)>

    function Rows(): Registry
      reads this
    {
      Registry(tools, ids, aliases)
    }

    constructor ()
      ensures Rows() == Registry(map[], map[], {})
    {
      tools, ids, aliases := map[], map[], {};
    }

    method InsertIdentifiers(identifiers: seq<Identifier>, toolId: string) returns (r: Result<(), RegistryError>)
      modifies this`ids
      ensures match InsertIds(old(ids), identifiers, toolId)
              case Ok(after) => r == Ok(()) && ids == after
              case Err(error) => r == Err(error)
    {
      for i := 0 to |identifiers|
        invariant InsertIds(old(ids), identifiers[..i], toolId) == Ok(ids)
      {
        assert identifiers[..i + 1][..i] == identifiers[..i];
        var id := identifiers[i];
        if !IdChecked(id) {
          InsertFails(old(ids), identifiers, i + 1, toolId);
          return Err(Database);
        }
        if (id.ns, id.value) in ids {
          InsertFails(old(ids), identifiers, i + 1, toolId);
          return Err(UniqueViolation);
        }
        ids := ids[(id.ns, id.value) := Owned(toolId, id.canonicalUrl)];
      }
      assert identifiers[..|identifiers|] == identifiers;
      r := Ok(());
    }

    method InsertAliasRows(names: seq<string>, toolId: string) returns (r: Result<(), RegistryError>)
      modifies this`aliases
      ensures match InsertAliases(old(aliases), names, toolId)
              case Ok(after) => r == Ok(()) && aliases == after
              case Err(error) => r == Err(error)
    {
      for i := 0 to |names|
        invariant InsertAliases(old(aliases), names[..i], toolId) == Ok(aliases)
      {
        assert names[..i + 1][..i] == names[..i];
        if !Checked(names[i]) || (toolId, names[i]) in aliases {
          AliasFails(old(aliases), names, i + 1, toolId);
          return Err(Database);
        }
        aliases := aliases + {(toolId, names[i])};
      }
      assert names[..|names|] == names;
      r := Ok(());
    }

    // `create_tool`: validation, then one transaction.
    method CreateTool(request: CreateToolRequest, now: int) returns (r: Result<ToolRow, RegistryError>)
      modifies this
      ensures r.Ok? <==> CreateRequestOk(request) && CreateToolTx(old(Rows()), RowOf(request, now), request.aliases).Ok?
      ensures r.Ok? ==> r.value == RowOf(request, now)
      ensures r.Err? ==> r.error == if !CreateRequestOk(request) then InvalidRequest
                                    else CreateToolTx(old(Rows()), RowOf(request, now), request.aliases).error
      ensures Rows() == if CreateRequestOk(request) then After(old(Rows()), CreateToolTx(old(Rows()), RowOf(request, now), request.aliases))
                        else old(Rows())
    {
      if !CreateRequestOk(request) { return Err(InvalidRequest); }
      var tool := RowOf(request, now);
      var toolsBefore, idsBefore, aliasesBefore := tools, ids, aliases;
      if !Checked(tool.toolId) || !Checked(tool.name) || !Checked(tool.canonicalUrl) { return Err(Database); }
      if tool.toolId in tools { return Err(UniqueViolation); }
      tools := tools[tool.toolId := tool];
      var inserted := InsertIdentifiers(tool.identifiers, tool.toolId);
      if inserted.Err? {
        tools, ids := toolsBefore, idsBefore;
        return Err(inserted.error);
      }
      var named := InsertAliasRows(request.aliases, tool.toolId);
      if named.Err? {
        tools, ids, aliases := toolsBefore, idsBefore, aliasesBefore;
        return Err(named.error);
      }
      r := Ok(tool);
    }

    // `add_identifier`: the key is looked up before the transaction inserts it.
    method AddIdentifier(toolId: string, id: Identifier, now: int) returns (ok: bool)
      modifies this
      ensures ok <==> toolId in old(tools) && KeyChecked(id) && Owners(old(Rows()), {Key(id)}) <= {toolId}
                      && AddExternalIdTx(old(Rows()), toolId, id, now).Ok?
      ensures Rows() == if ok then AddExternalIdTx(old(Rows()), toolId, id, now).value else old(Rows())
    {
      if toolId !in tools || !KeyChecked(id) { return false; }
      var owners := Owners(Rows(), {Key(id)});
      if !(owners <= {toolId}) { return false; }
      if !IdChecked(id) || (id.ns, id.value) in ids { return false; }
      ids := ids[(id.ns, id.value) := Owned(toolId, id.canonicalUrl)];
      var row := tools[toolId];
      tools := tools[toolId := row.(identifiers := row.identifiers + [id], updatedAt := now)];
      ok := true;
    }
  }

  // A refused row refuses every longer list.
  lemma {:induction false} InsertFails(ids: map<IdKey, Owned>, identifiers: seq<Identifier>, n: nat, toolId: string)
    requires n <= |identifiers| && InsertIds(ids, identifiers[..n], toolId).Err?
    ensures InsertIds(ids, identifiers, toolId) == InsertIds(ids, identifiers[..n], toolId)
    decreases |identifiers|
  {
    if n == |identifiers| {
      assert identifiers[..n] == identifiers;
    } else {
      var before := identifiers[..|identifiers| - 1];
      assert before[..n] == identifiers[..n];
      InsertFails(ids, before, n, toolId);
    }
  }

  lemma {:induction false} AliasFails(rows: set<(string, string)>, names: seq<string>, n: nat, toolId: string)
    requires n <= |names| && InsertAliases(rows, names[..n], toolId).Err?
    ensures InsertAliases(rows, names, toolId) == InsertAliases(rows, names[..n], toolId)
    decreases |names|
  {
    if n == |names| {
      assert names[..n] == names;
    } else {
      var before := names[..|names| - 1];
      assert before[..n] == names[..n];
      AliasFails(rows, before, n, toolId);
    }
  }
}

/** What every run of the registry keeps: the JSON arrays agree with the identifier rows, rows are
    never lost, and exactly when every key has one owner. */
module RegistryProperties {
  import opened Wrappers
  import opened Normalizer
  import opened NormalizerProperties
  import opened ToolRegistry
  import Text

  // ── Runs ──

  // `proceeds` is what the earlier lookup of the key decided; the transaction runs later.
  datatype Step =
    | CreateTool(request: CreateToolRequest, now: int)
    | AddIdentifier(toolId: string, id: Identifier, now: int, proceeds: bool)

  function Next(g: Registry, step: Step): Registry {
    match step
    case CreateTool(request, now) =>
      if CreateRequestOk(request) then After(g, CreateToolTx(g, RowOf(request, now), request.aliases)) else g
    case AddIdentifier(toolId, id, now, proceeds) =>
      if proceeds && KeyChecked(id) then After(g, AddExternalIdTx(g, toolId, id, now)) else g
  }

  const EMPTY: Registry := Registry(map[], map[], {})

  function Execute(g: Registry, steps: seq<Step>): Registry {
    if steps == [] then g else Next(Execute(g, steps[..|steps| - 1]), steps[|steps| - 1])
  }

  // ── The invariant ──

  function RowKey(p: IdKey): string { p.0 + ":" + p.1 }

  // The tool's JSON array lists exactly its identifier rows, none twice.
  ghost predicate JsonAgrees(g: Registry, toolId: string)
    requires toolId in g.tools
  {
    var ids := g.tools[toolId].identifiers;
    && (forall i :: 0 <= i < |ids| ==>
          (ids[i].ns, ids[i].value) in g.ids && g.ids[(ids[i].ns, ids[i].value)] == Owned(toolId, ids[i].canonicalUrl))
    && (forall i, j :: 0 <= i < j < |ids| ==> (ids[i].ns, ids[i].value) != (ids[j].ns, ids[j].value))
    && (forall p :: p in g.ids && g.ids[p].toolId == toolId ==> Identifier(p.0, p.1, g.ids[p].canonicalUrl) in ids)
  }

  ghost predicate RegistryInv(g: Registry) {
    && (forall p :: p in g.ids ==> g.ids[p].toolId in g.tools)
    && (forall p :: p in g.ids ==> KeyChecked(Identifier(p.0, p.1, g.ids[p].canonicalUrl)))
    && (forall t :: t in g.tools ==> g.tools[t].toolId == t && JsonAgrees(g, t))
    && (forall t :: t in g.tools ==> OwnsKey(g, t, t))
  }

  ghost predicate OwnsKey(g: Registry, t: string, key: string) {
    exists p :: p in g.ids && RowKey(p) == key && g.ids[p].toolId == t
  }

  // Earlier rows are still there.
  ghost predicate Keeps(g: Registry, h: Registry) {
    && (forall p :: p in g.ids ==> p in h.ids && h.ids[p] == g.ids[p])
    && g.tools.Keys <= h.tools.Keys
  }

  lemma {:induction false} OwnsForever(g: Registry, h: Registry, t: string, key: string)
    requires Keeps(g, h) && OwnsKey(g, t, key)
    ensures OwnsKey(h, t, key)
  {
    var p :| p in g.ids && RowKey(p) == key && g.ids[p].toolId == t;
    assert p in h.ids;
  }

  // ── Inserting identifiers ──

  ghost predicate RowIs(ids: map<IdKey, Owned>, id: Identifier, toolId: string) {
    (id.ns, id.value) in ids && ids[(id.ns, id.value)] == Owned(toolId, id.canonicalUrl)
  }

  // What a committed list of inserts leaves: the old rows, and one new row for each identifier.
  ghost predicate Inserted(ids: map<IdKey, Owned>, identifiers: seq<Identifier>, toolId: string, after: map<IdKey, Owned>) {
    && (forall p :: p in ids ==> p in after && after[p] == ids[p])
    && (forall id :: id in identifiers ==> (id.ns, id.value) !in ids && RowIs(after, id, toolId))
    && (forall i, j :: 0 <= i < j < |identifiers| ==>
          (identifiers[i].ns, identifiers[i].value) != (identifiers[j].ns, identifiers[j].value))
    && (forall p :: p in after && p !in ids ==> after[p].toolId == toolId && Identifier(p.0, p.1, after[p].canonicalUrl) in identifiers)
  }

  lemma {:induction false} InsertedOne(ids: map<IdKey, Owned>, identifiers: seq<Identifier>, id: Identifier, toolId: string,
                                       before: map<IdKey, Owned>)
    requires Inserted(ids, identifiers, toolId, before) && InsertId(before, id, toolId).Ok?
    ensures Inserted(ids, identifiers + [id], toolId, InsertId(before, id, toolId).value)
  {
    var all, after := identifiers + [id], InsertId(before, id, toolId).value;
    assert forall x :: x in all ==> x in identifiers || x == id;
    assert id in all && forall x :: x in identifiers ==> x in all;
    forall i, j | 0 <= i < j < |all| ensures (all[i].ns, all[i].value) != (all[j].ns, all[j].value) {
      if j == |identifiers| { assert identifiers[i] in identifiers && RowIs(before, identifiers[i], toolId); }
    }
  }

  lemma {:induction false} InsertsRows(ids: map<IdKey, Owned>, identifiers: seq<Identifier>, toolId: string)
    requires InsertIds(ids, identifiers, toolId).Ok?
    ensures Inserted(ids, identifiers, toolId, InsertIds(ids, identifiers, toolId).value)
  {
    hide InsertId, RowIs;
    if identifiers != [] {
      var before, last := identifiers[..|identifiers| - 1], identifiers[|identifiers| - 1];
      InsertsRows(ids, before, toolId);
      InsertedOne(ids, before, last, toolId, InsertIds(ids, before, toolId).value);
      assert identifiers == before + [last];
    }
  }

  // ── Every transaction ──

  lemma {:induction false} CountedKeyOccurs(identifiers: seq<Identifier>, key: string)
    requires CountKey(identifiers, key) >= 1
    ensures exists id :: id in identifiers && Key(id) == key
  {
    if Key(identifiers[0]) == key {
      assert identifiers[0] in identifiers;
    } else {
      CountedKeyOccurs(identifiers[1..], key);
      var id :| id in identifiers[1..] && Key(id) == key;
      assert id in identifiers;
    }
  }

  // A tool id is a key, so trimming it changes nothing.
  lemma {:induction false} ToolIdIsTrimmed(toolId: string)
    requires ToolIdFormat(toolId)
    ensures Text.Trim(toolId) == toolId
  {
    assert !Text.IsWhitespace(toolId[0]) && !Text.IsWhitespace(toolId[|toolId| - 1]);
    Text.TrimIsProjection(toolId);
  }

  // The rows of `g`, the new identifiers of one tool, and every other tool as it was.
  ghost predicate Changed(g: Registry, h: Registry, toolId: string, identifiers: seq<Identifier>) {
    && Inserted(g.ids, identifiers, toolId, h.ids)
    && (forall id :: id in identifiers ==> KeyChecked(id))
    && h.tools.Keys == g.tools.Keys + {toolId}
    && forall t :: t in g.tools && t != toolId ==> h.tools[t] == g.tools[t]
  }

  lemma {:induction false} RowsStayChecked(g: Registry, h: Registry, toolId: string, identifiers: seq<Identifier>)
    requires RegistryInv(g) && Changed(g, h, toolId, identifiers)
    ensures Keeps(g, h)
    ensures forall p :: p in h.ids ==> h.ids[p].toolId in h.tools
    ensures forall p :: p in h.ids ==> KeyChecked(Identifier(p.0, p.1, h.ids[p].canonicalUrl))
  {
    hide KeyChecked, JsonAgrees, OwnsKey;
  }

  lemma {:induction false} OthersAgree(g: Registry, h: Registry, toolId: string, identifiers: seq<Identifier>, t: string)
    requires RegistryInv(g) && Changed(g, h, toolId, identifiers) && t in g.tools && t != toolId
    ensures h.tools[t].toolId == t && JsonAgrees(h, t) && OwnsKey(h, t, t)
  {
    hide KeyChecked, OwnsKey, JsonAgrees;
    assert JsonAgrees(g, t);
    OldJsonAgrees(g, h, toolId, identifiers, t);
    RowsStayChecked(g, h, toolId, identifiers);
    OwnsForever(g, h, t, t);
  }

  // So the invariant only needs to be shown of the tool that changed.
  lemma {:induction false} InvFromTool(g: Registry, h: Registry, toolId: string, identifiers: seq<Identifier>)
    requires RegistryInv(g) && Changed(g, h, toolId, identifiers)
    requires h.tools[toolId].toolId == toolId && JsonAgrees(h, toolId) && OwnsKey(h, toolId, toolId)
    ensures RegistryInv(h) && Keeps(g, h)
  {
    hide KeyChecked, OwnsKey, JsonAgrees, Inserted, Keeps;
    RowsStayChecked(g, h, toolId, identifiers);
    forall t | t in h.tools ensures h.tools[t].toolId == t && JsonAgrees(h, t) && OwnsKey(h, t, t) {
      if t != toolId { OthersAgree(g, h, toolId, identifiers, t); }
    }
  }

  lemma {:induction false} OwnKeyInserted(h: Registry, identifiers: seq<Identifier>, toolId: string)
    requires CountKey(identifiers, toolId) >= 1 && forall id :: id in identifiers ==> RowIs(h.ids, id, toolId)
    ensures OwnsKey(h, toolId, toolId)
  {
    CountedKeyOccurs(identifiers, toolId);
    var own :| own in identifiers && Key(own) == toolId;
    assert RowIs(h.ids, own, toolId) && RowKey((own.ns, own.value)) == toolId;
  }

  lemma {:induction false} CreateToolKeeps(g: Registry, r: CreateToolRequest, now: int)
    requires RegistryInv(g) && CreateRequestOk(r) && CreateToolTx(g, RowOf(r, now), r.aliases).Ok?
    ensures var h := CreateToolTx(g, RowOf(r, now), r.aliases).value;
            RegistryInv(h) && Keeps(g, h) && Inserted(g.ids, r.identifiers, r.toolId, h.ids) && r.toolId in h.tools
  {
    hide RegistryInv, KeyChecked, ToolIdFormat, InsertIds, InsertAliases, Checked, Required, JsonAgrees, OwnsKey, Keeps;
    var h := CreateToolTx(g, RowOf(r, now), r.aliases).value;
    ToolIdIsTrimmed(r.toolId);
    InsertsRows(g.ids, r.identifiers, r.toolId);
    NewJsonAgrees(g, h, r.toolId, r.identifiers);
    OwnKeyInserted(h, r.identifiers, r.toolId);
    InvFromTool(g, h, r.toolId, r.identifiers);
  }

  lemma {:induction false} NewJsonAgrees(g: Registry, h: Registry, toolId: string, identifiers: seq<Identifier>)
    requires RegistryInv(g) && toolId !in g.tools && Inserted(g.ids, identifiers, toolId, h.ids)
    requires toolId in h.tools && h.tools[toolId].identifiers == identifiers
    ensures JsonAgrees(h, toolId)
  {
    hide KeyChecked, JsonAgrees, OwnsKey;
    forall i | 0 <= i < |identifiers| ensures RowIs(h.ids, identifiers[i], toolId) {
      assert identifiers[i] in identifiers;
    }
    JsonFrom(h, toolId);
  }

  lemma {:induction false} JsonFrom(h: Registry, toolId: string)
    requires toolId in h.tools
    requires var ids := h.tools[toolId].identifiers;
             && (forall i :: 0 <= i < |ids| ==> RowIs(h.ids, ids[i], toolId))
             && (forall i, j :: 0 <= i < j < |ids| ==> (ids[i].ns, ids[i].value) != (ids[j].ns, ids[j].value))
             && (forall p :: p in h.ids && h.ids[p].toolId == toolId ==> Identifier(p.0, p.1, h.ids[p].canonicalUrl) in ids)
    ensures JsonAgrees(h, toolId)
  {
  }

  lemma {:induction false} OldJsonAgrees(g: Registry, h: Registry, toolId: string, identifiers: seq<Identifier>, t: string)
    requires t in g.tools && JsonAgrees(g, t) && t != toolId && Inserted(g.ids, identifiers, toolId, h.ids)
    requires t in h.tools && h.tools[t].identifiers == g.tools[t].identifiers
    ensures JsonAgrees(h, t)
  {
  }

  // One identifier more in the array and in the table.
  lemma {:induction false} JsonAppended(g: Registry, h: Registry, toolId: string, id: Identifier)
    requires toolId in g.tools && JsonAgrees(g, toolId) && Inserted(g.ids, [id], toolId, h.ids)
    requires toolId in h.tools && h.tools[toolId].identifiers == g.tools[toolId].identifiers + [id]
    ensures JsonAgrees(h, toolId)
  {
    var had, all := g.tools[toolId].identifiers, h.tools[toolId].identifiers;
    assert id in [id] && RowIs(h.ids, id, toolId);
    forall i | 0 <= i < |all| ensures RowIs(h.ids, all[i], toolId) {
      if i < |had| { assert all[i] == had[i]; }
    }
    forall i, j | 0 <= i < j < |all| ensures (all[i].ns, all[i].value) != (all[j].ns, all[j].value) {
      if j == |had| { assert (had[i].ns, had[i].value) in g.ids; }
    }
    forall p | p in h.ids && h.ids[p].toolId == toolId ensures Identifier(p.0, p.1, h.ids[p].canonicalUrl) in all {
      assert Identifier(p.0, p.1, h.ids[p].canonicalUrl) in had || Identifier(p.0, p.1, h.ids[p].canonicalUrl) in [id];
    }
    JsonFrom(h, toolId);
  }

  lemma {:induction false} AddExternalIdKeeps(g: Registry, toolId: string, id: Identifier, now: int)
    requires RegistryInv(g) && KeyChecked(id) && AddExternalIdTx(g, toolId, id, now).Ok?
    ensures var h := AddExternalIdTx(g, toolId, id, now).value;
            RegistryInv(h) && Keeps(g, h) && Inserted(g.ids, [id], toolId, h.ids)
  {
    hide KeyChecked, IdChecked, JsonAgrees, OwnsKey, Keeps;
    var h := AddExternalIdTx(g, toolId, id, now).value;
    JsonAppended(g, h, toolId, id);
    OwnsStays(g, h, toolId);
    InvFromTool(g, h, toolId, [id]);
  }

  lemma {:induction false} OwnsStays(g: Registry, h: Registry, t: string)
    requires OwnsKey(g, t, t) && forall p :: p in g.ids ==> p in h.ids && h.ids[p] == g.ids[p]
    ensures OwnsKey(h, t, t)
  {
    var p :| p in g.ids && RowKey(p) == t && g.ids[p].toolId == t;
    assert p in h.ids;
  }

  lemma {:induction false} NextKeeps(g: Registry, step: Step)
    requires RegistryInv(g)
    ensures RegistryInv(Next(g, step)) && Keeps(g, Next(g, step))
  {
    hide RegistryInv, CreateRequestOk, CreateToolTx, AddExternalIdTx;
    match step
    case CreateTool(request, now) =>
      if CreateRequestOk(request) && CreateToolTx(g, RowOf(request, now), request.aliases).Ok? { CreateToolKeeps(g, request, now); }
    case AddIdentifier(toolId, id, now, proceeds) =>
      if proceeds && KeyChecked(id) && AddExternalIdTx(g, toolId, id, now).Ok? { AddExternalIdKeeps(g, toolId, id, now); }
  }

  // Whatever is created and added, in any order, the JSON arrays agree with the identifier rows, every
  // tool owns the key that is its id, and no row is lost.
  lemma {:induction false} RegistryIsConsistent(g: Registry, steps: seq<Step>)
    requires RegistryInv(g)
    ensures RegistryInv(Execute(g, steps)) && Keeps(g, Execute(g, steps))
  {
    hide RegistryInv, Next;
    if steps != [] {
      RegistryIsConsistent(g, steps[..|steps| - 1]);
      NextKeeps(Execute(g, steps[..|steps| - 1]), steps[|steps| - 1]);
    }
  }

  // ── One owner for a key ──

  ghost predicate OneOwner(g: Registry) {
    forall p, q :: p in g.ids && q in g.ids && RowKey(p) == RowKey(q) ==> g.ids[p].toolId == g.ids[q].toolId
  }

  ghost predicate Commits(g: Registry, step: Step) {
    match step
    case CreateTool(r, now) => CreateRequestOk(r) && CreateToolTx(g, RowOf(r, now), r.aliases).Ok?
    case AddIdentifier(toolId, id, now, proceeds) => proceeds && KeyChecked(id) && AddExternalIdTx(g, toolId, id, now).Ok?
  }

  // No other tool owns a key that the step adds. `add_identifier` looks this up before its transaction,
  // `create_tool` does not, and neither transaction checks it.
  predicate Unclaimed(g: Registry, step: Step) {
    match step
    case CreateTool(r, _) => Owners(g, Keys(r.identifiers)) <= {r.toolId}
    case AddIdentifier(toolId, id, _, _) => Owners(g, {Key(id)}) <= {toolId}
  }

  lemma {:induction false} OwnerShared(g: Registry, h: Registry, toolId: string, identifiers: seq<Identifier>, t: string)
    requires OneOwner(h) && Inserted(g.ids, identifiers, toolId, h.ids) && t in Owners(g, Keys(identifiers))
    ensures t == toolId
  {
    hide KeyChecked;
    var p :| p in g.ids && p.0 + ":" + p.1 in Keys(identifiers) && g.ids[p].toolId == t;
    var id :| id in identifiers && Key(id) == RowKey(p);
    assert RowIs(h.ids, id, toolId) && RowKey((id.ns, id.value)) == RowKey(p);
  }

  lemma {:induction false} InsertedOneOwner(g: Registry, h: Registry, toolId: string, identifiers: seq<Identifier>)
    requires OneOwner(g) && Inserted(g.ids, identifiers, toolId, h.ids)
    ensures OneOwner(h) <==> Owners(g, Keys(identifiers)) <= {toolId}
  {
    if OneOwner(h) {
      forall t | t in Owners(g, Keys(identifiers)) ensures t == toolId { OwnerShared(g, h, toolId, identifiers, t); }
    }
    if Owners(g, Keys(identifiers)) <= {toolId} {
      forall p, q | p in h.ids && q in h.ids && RowKey(p) == RowKey(q) && p in g.ids && q !in g.ids
        ensures h.ids[p].toolId == h.ids[q].toolId
      {
        assert Key(Identifier(q.0, q.1, h.ids[q].canonicalUrl)) in Keys(identifiers);
        assert g.ids[p].toolId in Owners(g, Keys(identifiers));
      }
    }
  }

  lemma {:induction false} StepInserts(g: Registry, step: Step)
    requires RegistryInv(g) && Commits(g, step)
    ensures match step
            case CreateTool(r, _) => Inserted(g.ids, r.identifiers, r.toolId, Next(g, step).ids)
            case AddIdentifier(toolId, id, _, _) => Inserted(g.ids, [id], toolId, Next(g, step).ids) && Keys([id]) == {Key(id)}
  {
    hide RegistryInv, CreateRequestOk, CreateToolTx, AddExternalIdTx, KeyChecked, Inserted, Key;
    match step
    case CreateTool(r, now) => CreateToolKeeps(g, r, now);
    case AddIdentifier(toolId, id, now, _) =>
      AddExternalIdKeeps(g, toolId, id, now);
      assert id in [id];
  }

  // A step keeps one owner for every key exactly when it is refused, or when no other tool owns a key
  // that it adds.
  lemma {:induction false} StepKeepsOneOwner(g: Registry, step: Step)
    requires RegistryInv(g) && OneOwner(g)
    ensures OneOwner(Next(g, step)) <==> (Commits(g, step) ==> Unclaimed(g, step))
  {
    hide RegistryInv, OneOwner, CreateRequestOk, CreateToolTx, AddExternalIdTx, KeyChecked, Inserted, Owners, Keys, RowOf;
    if Commits(g, step) {
      StepInserts(g, step);
      match step
      case CreateTool(r, _) => InsertedOneOwner(g, Next(g, step), r.toolId, r.identifiers);
      case AddIdentifier(toolId, id, _, _) => InsertedOneOwner(g, Next(g, step), toolId, [id]);
    }
  }

  lemma {:induction false} TwoOwnersRemain(g: Registry, h: Registry)
    requires Keeps(g, h) && OneOwner(h)
    ensures OneOwner(g)
  {
  }

  // Step `i` of the run is refused, or adds no key of another tool.
  ghost predicate AddsNoOwner(steps: seq<Step>, i: nat)
    requires i < |steps|
  {
    var g := Execute(EMPTY, steps[..i]);
    Commits(g, steps[i]) ==> Unclaimed(g, steps[i])
  }

  // Over any run: every key has one owner exactly when no step that committed added a key of another tool.
  lemma {:induction false} OneOwnerExactly(steps: seq<Step>)
    ensures OneOwner(Execute(EMPTY, steps)) <==> forall i :: 0 <= i < |steps| ==> AddsNoOwner(steps, i)
  {
    hide RegistryInv, Next, OneOwner, AddsNoOwner, Keeps;
    EmptyInv();
    if steps != [] {
      var k := |steps| - 1;
      var before := steps[..k];
      var g := Execute(EMPTY, before);
      OneOwnerExactly(before);
      forall i | 0 <= i < k ensures AddsNoOwner(before, i) <==> AddsNoOwner(steps, i) { SameBefore(before, steps, i); }
      RegistryIsConsistent(EMPTY, before);
      LastStep(g, steps);
    }
  }

  lemma {:induction false} SameBefore(before: seq<Step>, steps: seq<Step>, i: nat)
    requires before <= steps && i < |before|
    ensures AddsNoOwner(before, i) <==> AddsNoOwner(steps, i)
  {
    assert before[..i] == steps[..i];
  }

  lemma {:induction false} LastStep(g: Registry, steps: seq<Step>)
    requires steps != [] && g == Execute(EMPTY, steps[..|steps| - 1]) && RegistryInv(g)
    ensures OneOwner(Execute(EMPTY, steps)) <==> OneOwner(g) && AddsNoOwner(steps, |steps| - 1)
  {
    hide RegistryInv, Next, OneOwner, Commits, Unclaimed, Keeps;
    var step := steps[|steps| - 1];
    NextKeeps(g, step);
    if OneOwner(g) { StepKeepsOneOwner(g, step); }
    if OneOwner(Next(g, step)) { TwoOwnersRemain(g, Next(g, step)); }
  }

  // As the schemas demand: of `github` and `url`, neither holds a colon.
  predicate PlainNamespace(ns: string) { ':' !in ns }

  predicate PlainStep(step: Step) {
    match step
    case CreateTool(request, _) => forall id :: id in request.identifiers ==> PlainNamespace(id.ns)
    case AddIdentifier(_, id, _, _) => PlainNamespace(id.ns)
  }

  ghost predicate PlainRows(g: Registry) { forall p :: p in g.ids ==> PlainNamespace(p.0) }

  // What precedes the first colon of a key is its namespace.
  lemma {:induction false} PlainKeysSplit(p: IdKey, q: IdKey)
    requires PlainNamespace(p.0) && PlainNamespace(q.0) && RowKey(p) == RowKey(q)
    ensures p == q
  {
    assert RowKey(p)[|p.0|] == ':' && RowKey(q)[|q.0|] == ':';
    assert forall i :: 0 <= i < |p.0| ==> RowKey(p)[i] == p.0[i] && RowKey(p)[i] != ':';
    assert forall i :: 0 <= i < |q.0| ==> RowKey(q)[i] == q.0[i] && RowKey(q)[i] != ':';
    assert |p.0| == |q.0|;
    assert p.0 == RowKey(p)[..|p.0|] && p.1 == RowKey(p)[|p.0| + 1..];
    assert q.0 == RowKey(q)[..|q.0|] && q.1 == RowKey(q)[|q.0| + 1..];
  }

  lemma {:induction false} PlainIsOneOwner(g: Registry)
    requires PlainRows(g)
    ensures OneOwner(g)
  {
    forall p, q | p in g.ids && q in g.ids && RowKey(p) == RowKey(q) ensures g.ids[p].toolId == g.ids[q].toolId {
      PlainKeysSplit(p, q);
    }
  }

  lemma {:induction false} PlainNext(g: Registry, step: Step)
    requires RegistryInv(g) && PlainRows(g) && PlainStep(step)
    ensures PlainRows(Next(g, step))
  {
    hide CreateRequestOk, RegistryInv, CreateToolTx, KeyChecked;
    match step
    case CreateTool(request, now) =>
      if CreateRequestOk(request) && CreateToolTx(g, RowOf(request, now), request.aliases).Ok? {
        CreateToolKeeps(g, request, now);
      }
    case AddIdentifier(_, _, _, _) =>
  }

  // When no namespace holds a colon, no key is ever owned by two tools.
  lemma {:induction false} KeysHaveOneOwner(steps: seq<Step>)
    requires forall s :: s in steps ==> PlainStep(s)
    ensures PlainRows(Execute(EMPTY, steps)) && OneOwner(Execute(EMPTY, steps))
  {
    hide RegistryInv, Next, OneOwner;
    if steps != [] {
      var before := steps[..|steps| - 1];
      assert forall s :: s in before ==> s in steps;
      assert steps[|steps| - 1] in steps;
      EmptyInv();
      RegistryIsConsistent(EMPTY, before);
      KeysHaveOneOwner(before);
      PlainNext(Execute(EMPTY, before), steps[|steps| - 1]);
    }
    PlainIsOneOwner(Execute(EMPTY, steps));
  }

  lemma {:induction false} EmptyInv()
    ensures RegistryInv(EMPTY) && OneOwner(EMPTY)
  {
  }
}

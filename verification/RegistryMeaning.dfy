/** What the registry takes, and what it then holds. */
module RegistryMeaning {
  import opened Wrappers
  import opened Normalizer
  import opened NormalizerMeaning
  import opened ToolRegistry
  import opened RegistryProperties
  import opened RecordMeaning
  import Text

  // ── Requests ──

  // `github:` or `url:` and something without whitespace.
  ghost predicate ToolIdLike(toolId: string) {
    exists rest :: (toolId == "github:" + rest || toolId == "url:" + rest) && Solid(rest)
  }

  ghost predicate Solid(s: string) { s != "" && forall i :: 0 <= i < |s| ==> !Text.IsWhitespace(s[i]) }

  ghost predicate Short(s: string, most: nat) { exists core :: Stripped(s, core) && 0 < |core| <= most }

  // The identifier has the key that its URL reads as.
  ghost predicate ReadsAs(id: Identifier) {
    exists n :: NormalizeUrl(id.canonicalUrl) == Some(n) && n.ns + ":" + n.value == id.ns + ":" + id.value
  }

  ghost predicate SameUrl(a: string, b: string) { exists core :: Stripped(a, core) && Stripped(b, core) }

  ghost predicate SameName(a: string, b: string) { exists low :: LowerOf(a, low) && LowerOf(b, low) }

  predicate KeyedAt(ids: seq<Identifier>, i: nat, key: string)
    requires i < |ids|
  {
    ids[i].ns + ":" + ids[i].value == key
  }

  ghost predicate KeyedOnly(ids: seq<Identifier>, i: int, key: string) {
    0 <= i < |ids| && KeyedAt(ids, i, key) && forall j :: 0 <= j < |ids| && j != i ==> !KeyedAt(ids, j, key)
  }

  // A tool of one to twenty identifiers, of which one has the tool's id for its key and one its URL; and with
  // names that are no two the same.
  ghost predicate ToolAsked(r: CreateToolRequest) {
    && ToolIdLike(r.toolId) && Short(r.name, 200) && Short(r.canonicalUrl, 2048)
    && 1 <= |r.identifiers| <= 20 && (forall i :: 0 <= i < |r.identifiers| ==> ReadsAs(r.identifiers[i]))
    && (exists i :: KeyedOnly(r.identifiers, i, r.toolId))
    && (exists i :: 0 <= i < |r.identifiers| && SameUrl(r.identifiers[i].canonicalUrl, r.canonicalUrl))
    && (forall i :: 0 <= i < |r.aliases| ==> Short(r.aliases[i], 200))
    && (forall i, j :: 0 <= i < j < |r.aliases| ==> !SameName(r.aliases[i], r.aliases[j]))
  }

  lemma {:induction false} ToolIdIs(toolId: string)
    ensures ToolIdFormat(toolId) <==> ToolIdLike(toolId)
  {
    hide Solid;
    if ToolIdFormat(toolId) { FormatIsLike(toolId); }
    if rest :| (toolId == "github:" + rest || toolId == "url:" + rest) && Solid(rest) { LikeIsFormat(toolId, rest); }
  }

  lemma {:induction false} FormatIsLike(toolId: string)
    requires ToolIdFormat(toolId)
    ensures ToolIdLike(toolId)
  {
    if "github:" <= toolId {
      assert toolId == "github:" + toolId[7..] && Solid(toolId[7..]);
    } else {
      assert toolId == "url:" + toolId[4..] && Solid(toolId[4..]);
    }
  }

  lemma {:induction false} LikeIsFormat(toolId: string, rest: string)
    requires (toolId == "github:" + rest || toolId == "url:" + rest) && Solid(rest)
    ensures ToolIdFormat(toolId)
  {
    if toolId == "github:" + rest {
      assert toolId[7..] == rest;
    } else {
      assert toolId[0] == 'u' && toolId[4..] == rest;
    }
  }

  lemma {:induction false} ShortIs(s: string, most: nat)
    ensures Required(s, most) <==> Short(s, most)
  {
    hide Stripped;
    StrippedIsTrimmed(s, Text.Trim(s));
    forall core | Stripped(s, core) ensures core == Text.Trim(s) { StrippedIsTrimmed(s, core); }
  }

  lemma {:induction false} SameUrlIs(a: string, b: string)
    ensures Text.Trim(a) == Text.Trim(b) <==> SameUrl(a, b)
  {
    hide Stripped;
    StrippedIsTrimmed(a, Text.Trim(a));
    StrippedIsTrimmed(b, Text.Trim(b));
    forall core | Stripped(a, core) ensures core == Text.Trim(a) { StrippedIsTrimmed(a, core); }
    forall core | Stripped(b, core) ensures core == Text.Trim(b) { StrippedIsTrimmed(b, core); }
  }

  lemma {:induction false} SameNameIs(a: string, b: string)
    ensures Text.Lower(a) == Text.Lower(b) <==> SameName(a, b)
  {
    hide LowerOf;
    LowerIs(a, Text.Lower(a));
    LowerIs(b, Text.Lower(b));
    forall low | LowerOf(a, low) ensures low == Text.Lower(a) { LowerIs(a, low); }
    forall low | LowerOf(b, low) ensures low == Text.Lower(b) { LowerIs(b, low); }
  }

  lemma {:induction false} ReadsIs(id: Identifier)
    ensures KeyChecked(id) <==> ReadsAs(id)
  {
    hide NormalizeUrl;
  }

  ghost predicate KeyedNever(ids: seq<Identifier>, key: string) { forall i :: 0 <= i < |ids| ==> !KeyedAt(ids, i, key) }

  lemma {:induction false} CountIsNone(ids: seq<Identifier>, key: string)
    ensures CountKey(ids, key) == 0 <==> KeyedNever(ids, key)
  {
    if ids != [] {
      CountIsNone(ids[1..], key);
      forall i | 0 <= i < |ids[1..]| ensures KeyedAt(ids[1..], i, key) <==> KeyedAt(ids, i + 1, key) {}
      assert KeyedNever(ids, key) ==> !KeyedAt(ids, 0, key);
      if KeyedNever(ids[1..], key) && !KeyedAt(ids, 0, key) {
        forall i | 0 <= i < |ids| ensures !KeyedAt(ids, i, key) {
          if i > 0 { assert !KeyedAt(ids[1..], i - 1, key); }
        }
      }
    }
  }

  lemma {:induction false} CountedOnce(ids: seq<Identifier>, key: string) returns (i: int)
    requires CountKey(ids, key) == 1
    ensures KeyedOnly(ids, i, key)
  {
    var rest := ids[1..];
    if KeyedAt(ids, 0, key) {
      i := 0;
      CountIsNone(rest, key);
      forall j | 0 < j < |ids| ensures !KeyedAt(ids, j, key) { assert !KeyedAt(rest, j - 1, key); }
    } else {
      var k := CountedOnce(rest, key);
      i := k + 1;
      forall j | 0 < j < |ids| && j != i ensures !KeyedAt(ids, j, key) { assert !KeyedAt(rest, j - 1, key); }
    }
  }

  lemma {:induction false} OnceCounted(ids: seq<Identifier>, key: string, i: int)
    requires KeyedOnly(ids, i, key)
    ensures CountKey(ids, key) == 1
  {
    var rest := ids[1..];
    forall j | 0 <= j < |rest| && j != i - 1 ensures !KeyedAt(rest, j, key) { assert !KeyedAt(ids, j + 1, key); }
    if i == 0 {
      CountIsNone(rest, key);
    } else {
      assert !KeyedAt(ids, 0, key);
      OnceCounted(rest, key, i - 1);
    }
  }

  lemma {:induction false} CountIs(ids: seq<Identifier>, key: string)
    ensures CountKey(ids, key) == 1 <==> exists i :: KeyedOnly(ids, i, key)
  {
    hide KeyedOnly, CountKey;
    if CountKey(ids, key) == 1 { var i := CountedOnce(ids, key); }
    if i :| KeyedOnly(ids, i, key) { OnceCounted(ids, key, i); }
  }

  lemma {:induction false} AskedIs(r: CreateToolRequest)
    ensures CreateRequestOk(r) <==> ToolAsked(r)
  {
    hide ToolIdFormat, ToolIdLike, Required, Short, KeyChecked, ReadsAs, SameUrl, SameName, CountKey, KeyedOnly;
    ToolIdIs(r.toolId);
    ShortIs(r.name, 200);
    ShortIs(r.canonicalUrl, 2048);
    CountIs(r.identifiers, r.toolId);
    forall id: Identifier ensures KeyChecked(id) <==> ReadsAs(id) { ReadsIs(id); }
    forall a: string ensures Required(a, 200) <==> Short(a, 200) { ShortIs(a, 200); }
    forall a: string, b: string ensures Text.Lower(a) == Text.Lower(b) <==> SameName(a, b) { SameNameIs(a, b); }
    forall a: string ensures Text.Trim(a) == Text.Trim(r.canonicalUrl) <==> SameUrl(a, r.canonicalUrl) { SameUrlIs(a, r.canonicalUrl); }
    assert forall id :: id in r.identifiers <==> exists i :: 0 <= i < |r.identifiers| && r.identifiers[i] == id;
    assert forall a :: a in r.aliases <==> exists i :: 0 <= i < |r.aliases| && r.aliases[i] == a;
  }

  // ── What the tables admit ──

  predicate HasText(s: string) { exists i :: 0 <= i < |s| && s[i] != ' ' }

  // New rows, no two of one key, and none blank.
  ghost predicate IdsFit(rows: map<IdKey, Owned>, ids: seq<Identifier>) {
    && (forall i :: 0 <= i < |ids| ==>
          && HasText(ids[i].ns) && HasText(ids[i].value) && HasText(ids[i].canonicalUrl)
          && (ids[i].ns, ids[i].value) !in rows)
    && forall i, j :: 0 <= i < j < |ids| ==> (ids[i].ns, ids[i].value) != (ids[j].ns, ids[j].value)
  }

  ghost predicate AliasesFit(rows: set<(string, string)>, aliases: seq<string>, toolId: string) {
    && (forall i :: 0 <= i < |aliases| ==> HasText(aliases[i]) && (toolId, aliases[i]) !in rows)
    && forall i, j :: 0 <= i < j < |aliases| ==> aliases[i] != aliases[j]
  }

  lemma {:induction false} InsertsExactly(rows: map<IdKey, Owned>, ids: seq<Identifier>, toolId: string)
    ensures InsertIds(rows, ids, toolId).Ok? <==> IdsFit(rows, ids)
  {
    if ids != [] {
      var before, last := ids[..|ids| - 1], ids[|ids| - 1];
      InsertsExactly(rows, before, toolId);
      var r := InsertIds(rows, before, toolId);
      if r.Ok? {
        InsertsRows(rows, before, toolId);
        forall i | 0 <= i < |before| ensures before[i] in before && ids[i] == before[i] && RowIs(r.value, before[i], toolId) {}
        InsertsOneMore(rows, before, last, toolId);
        assert ids == before + [last];
      } else {
        assert IdsFit(rows, ids) ==> IdsFit(rows, before);
      }
    }
  }

  lemma {:induction false} InsertsOneMore(rows: map<IdKey, Owned>, before: seq<Identifier>, last: Identifier, toolId: string)
    requires IdsFit(rows, before) && InsertIds(rows, before, toolId).Ok?
    requires Inserted(rows, before, toolId, InsertIds(rows, before, toolId).value)
    ensures InsertId(InsertIds(rows, before, toolId).value, last, toolId).Ok? <==> IdsFit(rows, before + [last])
  {
    hide InsertIds;
    var mid, all := InsertIds(rows, before, toolId).value, before + [last];
    var p := (last.ns, last.value);
    if p in mid && p !in rows {
      assert Identifier(p.0, p.1, mid[p].canonicalUrl) in before;
      var i :| 0 <= i < |before| && before[i] == Identifier(p.0, p.1, mid[p].canonicalUrl);
      assert all[i] == before[i] && all[|before|] == last;
    }
    if p !in mid {
      forall i | 0 <= i < |before| ensures (before[i].ns, before[i].value) != p {
        assert before[i] in before && RowIs(mid, before[i], toolId);
      }
    }
    if IdsFit(rows, all) { assert all[|before|] == last; }
  }

  lemma {:induction false} AliasesExactly(rows: set<(string, string)>, aliases: seq<string>, toolId: string)
    ensures InsertAliases(rows, aliases, toolId).Ok? <==> AliasesFit(rows, aliases, toolId)
    ensures InsertAliases(rows, aliases, toolId).Ok? ==>
              InsertAliases(rows, aliases, toolId).value == rows + set a | a in aliases :: (toolId, a)
  {
    if aliases != [] {
      var before, last := aliases[..|aliases| - 1], aliases[|aliases| - 1];
      assert aliases == before + [last];
      AliasesExactly(rows, before, toolId);
      var r := InsertAliases(rows, before, toolId);
      if r.Ok? {
        assert (toolId, last) in r.value <==> (toolId, last) in rows || last in before;
        if last in before { var i :| 0 <= i < |before| && before[i] == last; assert aliases[i] == last; }
      } else {
        assert AliasesFit(rows, aliases, toolId) ==> AliasesFit(rows, before, toolId);
      }
    }
  }

  // ── Creating a tool ──

  ghost predicate ToolFits(g: Registry, r: CreateToolRequest) {
    r.toolId !in g.tools && IdsFit(g.ids, r.identifiers) && AliasesFit(g.aliases, r.aliases, r.toolId)
  }

  // The tool as it was asked for, a row for each of its identifiers and each of its names, and nothing else.
  ghost predicate ToolStored(g: Registry, h: Registry, r: CreateToolRequest, now: int) {
    && r.toolId in h.tools && h.tools == g.tools[r.toolId := h.tools[r.toolId]]
    && var row := h.tools[r.toolId];
    && row.toolId == r.toolId && Stripped(r.name, row.name) && row.toolType == r.toolType && Stripped(r.canonicalUrl, row.canonicalUrl)
    && row.identifiers == r.identifiers && row.createdAt == now && row.updatedAt == now
    && Inserted(g.ids, r.identifiers, r.toolId, h.ids)
    && h.aliases == g.aliases + set a | a in r.aliases :: (r.toolId, a)
  }

  lemma {:induction false} StrippedHasText(s: string, core: string)
    requires Stripped(s, core) && core != ""
    ensures Checked(core)
  {
    assert core[0] != ' ';
  }

  // A tool is created exactly when it is asked for so and the tables have room for it; otherwise nothing is.
  lemma {:induction false} CreateExactly(g: Registry, r: CreateToolRequest, now: int)
    ensures var tx := CreateToolTx(g, RowOf(r, now), r.aliases);
            && (CreateRequestOk(r) && tx.Ok? <==> ToolAsked(r) && ToolFits(g, r))
            && (CreateRequestOk(r) && tx.Ok? ==> ToolStored(g, tx.value, r, now))
  {
    hide CreateRequestOk, ToolAsked, InsertIds, InsertAliases, IdsFit, AliasesFit, Stripped, Checked;
    AskedIs(r);
    if CreateRequestOk(r) {
      RowIsAsked(r, now);
      InsertsExactly(g.ids, r.identifiers, r.toolId);
      AliasesExactly(g.aliases, r.aliases, r.toolId);
      if CreateToolTx(g, RowOf(r, now), r.aliases).Ok? { InsertsRows(g.ids, r.identifiers, r.toolId); }
    }
  }

  lemma {:induction false} RowIsAsked(r: CreateToolRequest, now: int)
    requires CreateRequestOk(r)
    ensures var row := RowOf(r, now);
            && row.toolId == r.toolId && Stripped(r.name, row.name) && Stripped(r.canonicalUrl, row.canonicalUrl)
            && Checked(row.toolId) && Checked(row.name) && Checked(row.canonicalUrl) && row.identifiers != []
  {
    hide Stripped, Checked, KeyChecked, CountKey;
    ToolIdIsTrimmed(r.toolId);
    TrimStrips(r.name);
    TrimStrips(r.canonicalUrl);
    TrimStrips(r.toolId);
    StrippedHasText(r.toolId, Text.Trim(r.toolId));
    StrippedHasText(r.name, Text.Trim(r.name));
    StrippedHasText(r.canonicalUrl, Text.Trim(r.canonicalUrl));
  }

  // ── Adding an identifier ──

  ghost predicate IdAsked(g: Registry, toolId: string, id: Identifier) {
    && toolId in g.tools && ReadsAs(id)
    && (forall p :: p in g.ids && p.0 + ":" + p.1 == id.ns + ":" + id.value ==> g.ids[p].toolId == toolId)
    && IdsFit(g.ids, [id])
  }

  ghost predicate IdStored(g: Registry, h: Registry, toolId: string, id: Identifier, now: int) {
    && toolId in g.tools && toolId in h.tools && h.tools == g.tools[toolId := h.tools[toolId]] && h.aliases == g.aliases
    && h.ids == g.ids[(id.ns, id.value) := Owned(toolId, id.canonicalUrl)]
    && var was, row := g.tools[toolId], h.tools[toolId];
    && row.identifiers == was.identifiers + [id] && row.updatedAt == now
    && row == was.(identifiers := row.identifiers, updatedAt := row.updatedAt)
  }

  // An identifier is added exactly when the tool exists, its URL reads as its key, no other tool owns that key,
  // and it is new; and then both the tool's array and the rows have it.
  lemma {:induction false} AddExactly(g: Registry, toolId: string, id: Identifier, now: int)
    ensures var tx := AddExternalIdTx(g, toolId, id, now);
            var ok := toolId in g.tools && KeyChecked(id) && Owners(g, {Key(id)}) <= {toolId} && tx.Ok?;
            (ok <==> IdAsked(g, toolId, id)) && (ok ==> IdStored(g, tx.value, toolId, id, now))
  {
    hide KeyChecked, ReadsAs, HasText, Checked, Owners;
    ReadsIs(id);
    TextIs(id.ns);
    TextIs(id.value);
    TextIs(id.canonicalUrl);
    OwnersWithin(g, toolId, id);
    assert [id][0] == id;
  }

  lemma {:induction false} OwnersWithin(g: Registry, toolId: string, id: Identifier)
    ensures Owners(g, {Key(id)}) <= {toolId} <==>
            forall p :: p in g.ids && p.0 + ":" + p.1 == id.ns + ":" + id.value ==> g.ids[p].toolId == toolId
  {
    forall p | p in g.ids && p.0 + ":" + p.1 == id.ns + ":" + id.value ensures g.ids[p].toolId in Owners(g, {Key(id)}) {}
  }

  lemma {:induction false} TextIs(s: string)
    ensures Checked(s) <==> HasText(s)
  {
  }
}

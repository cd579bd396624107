/** The generation prompt as a function of the selected fields, and its validation:
    which keys and join paths appear with which columns, the text that this gives,
    and why more fields never make a shorter text. */
module Prompt {
  import opened Ids

  // JSON text

  /** Text is a scalar or a fixed part, already written out in UTF-8; one char stands for one byte. */
  datatype Json = Text(text: string) | List(items: seq<Json>) | Object(members: seq<Member>)

  datatype Member = Member(name: string, value: Json)

  /** Compact form: no spaces after the separators. */
  function Render(j: Json): string {
    match j
    case Text(text) => text
    case List(items) => "[" + RenderItems(items) + "]"
    case Object(members) => "{" + RenderMembers(members) + "}"
  }

  function RenderItems(items: seq<Json>): string {
    if items == [] then ""
    else if |items| == 1 then Render(items[0])
    else Render(items[0]) + "," + RenderItems(items[1..])
  }

  function RenderMember(member: Member): string {
    "\"" + member.name + "\":" + Render(member.value)
  }

  function RenderMembers(members: seq<Member>): string {
    if members == [] then ""
    else if |members| == 1 then RenderMember(members[0])
    else RenderMember(members[0]) + "," + RenderMembers(members[1..])
  }

  /** Bytes of the items of a list, each with one separator. */
  function ItemBytes(items: seq<Json>): int {
    if items == [] then 0 else |Render(items[0])| + 1 + ItemBytes(items[1..])
  }

  lemma {:induction false} RenderedListBytes(items: seq<Json>)
    ensures |RenderItems(items)| == if items == [] then 0 else ItemBytes(items) - 1
    ensures |Render(List(items))| == if items == [] then 2 else ItemBytes(items) + 1
  {
    if items != [] {
      RenderedListBytes(items[1..]);
    }
  }

  lemma {:induction false} ItemBytesJoin(a: seq<Json>, b: seq<Json>)
    ensures ItemBytes(a + b) == ItemBytes(a) + ItemBytes(b)
  {
    if a == [] {
      assert a + b == b;
    } else {
      assert (a + b)[1..] == a[1..] + b;
      ItemBytesJoin(a[1..], b);
    }
  }

  lemma {:induction false} ItemBytesPositive(items: seq<Json>)
    ensures ItemBytes(items) >= |items|
  {
    if items != [] {
      ItemBytesPositive(items[1..]);
    }
  }

  lemma {:induction false} ListGrows(a: seq<Json>, b: seq<Json>)
    requires |a| == 0 || |b| > 0
    requires ItemBytes(a) <= ItemBytes(b)
    ensures |Render(List(a))| <= |Render(List(b))|
  {
    RenderedListBytes(a);
    RenderedListBytes(b);
    ItemBytesPositive(b);
  }

  // The context

  /** kind stands for the column's type and nullability, which must agree with the snapshot. */
  datatype Field = Field(id: int, table: int, score: real, matched: bool, kind: int, json: Json)

  /** A primary or foreign key: its tables, and the ids of its columns on both sides. */
  datatype Key = Key(tables: seq<int>, columns: seq<int>, json: Json)

  datatype Edge = Edge(constraint: int, source: int, sourceColumns: seq<int>, target: int, targetColumns: seq<int>)

  datatype Path = Path(tables: seq<int>, edges: seq<Edge>, json: Json)

  datatype Snapshot = Snapshot(
    version: int, tables: set<int>, kinds: map<int, int>, edges: set<Edge>,
    primaryKeys: seq<Key>, foreignKeys: seq<Key>)

  /** scalarsOk: question, dialect, top_k and row limit are in range. */
  datatype Context = Context(
    scalarsOk: bool, topK: int, version: int, snapshot: Snapshot,
    tables: seq<int>, fields: seq<Field>, paths: seq<Path>,
    systemPrompt: string, allowedFunctions: Json, candidateTables: Json, dialect: Json, maxResultRows: Json,
    normalizedQuestion: Json, normalizedTime: Json, promptVersion: Json, question: Json, schemaVersion: Json)

  function FieldIds(fields: seq<Field>): seq<int> {
    if fields == [] then [] else [fields[0].id] + FieldIds(fields[1..])
  }

  lemma {:induction false} FieldIdsIndexed(fields: seq<Field>)
    ensures |FieldIds(fields)| == |fields|
    ensures forall i | 0 <= i < |fields| :: FieldIds(fields)[i] == fields[i].id
  {
    if fields != [] {
      FieldIdsIndexed(fields[1..]);
    }
  }

  // Validation

  predicate FieldOk(c: Context, field: Field) {
    && field.table in c.tables
    && field.id in c.snapshot.kinds && c.snapshot.kinds[field.id] == field.kind
  }

  predicate EdgeOk(c: Context, left: int, right: int, edge: Edge) {
    edge in c.snapshot.edges && {edge.source, edge.target} == {left, right}
  }

  predicate PathOk(c: Context, path: Path) {
    && path.tables != [] && |path.edges| == |path.tables| - 1
    && (forall i | 0 <= i < |path.tables| :: path.tables[i] in c.tables)
    && (forall i | 0 <= i < |path.edges| :: EdgeOk(c, path.tables[i], path.tables[i + 1], path.edges[i]))
  }

  ghost predicate ValidContext(c: Context) {
    && c.scalarsOk && 0 < |c.tables| <= c.topK && c.version == c.snapshot.version
    && NoRepeats(c.tables) && (forall i | 0 <= i < |c.tables| :: c.tables[i] in c.snapshot.tables)
    && NoRepeats(FieldIds(c.fields)) && (forall i | 0 <= i < |c.fields| :: FieldOk(c, c.fields[i]))
    && (forall i | 0 <= i < |c.paths| :: PathOk(c, c.paths[i]))
  }

  /** Distinct ids, all of them candidate fields. */
  ghost predicate ValidSelection(c: Context, selected: seq<int>) {
    NoRepeats(selected) && forall i | 0 <= i < |selected| :: selected[i] in FieldIds(c.fields)
  }

  method ValidateContext(c: Context, selected: seq<int>) returns (ok: bool)
    ensures ok <==> ValidContext(c) && ValidSelection(c, selected)
  {
    if !c.scalarsOk || c.tables == [] || |c.tables| > c.topK || c.version != c.snapshot.version {
      return false;
    }
    FieldIdsIndexed(c.fields);
    var ids: seq<int> := FieldIds(c.fields);
    ok := DistinctWithin(c.tables, c.snapshot.tables);
    if !ok {
      return;
    }
    ok := FieldsOk(c);
    if !ok {
      return;
    }
    ok := DistinctWithin(selected, set i | 0 <= i < |ids| :: ids[i]);
    if !ok {
      return;
    }
    for i := 0 to |c.paths|
      invariant forall j | 0 <= j < i :: PathOk(c, c.paths[j])
    {
      if !PathOk(c, c.paths[i]) {
        return false;
      }
    }
  }

  method DistinctWithin(ids: seq<int>, within: set<int>) returns (ok: bool)
    ensures ok <==> NoRepeats(ids) && forall i | 0 <= i < |ids| :: ids[i] in within
  {
    var seen: set<int> := {};
    for i := 0 to |ids|
      invariant NoRepeats(ids[..i]) && (forall j | 0 <= j < i :: ids[j] in within)
      invariant forall t :: t in seen <==> t in ids[..i]
    {
      var id := ids[i];
      if id in seen || id !in within {
        assert id in seen ==> id in ids[..i];
        return false;
      }
      seen := seen + {id};
      assert ids[..i + 1] == ids[..i] + [id];
    }
    assert ids[..|ids|] == ids;
    ok := true;
  }

  method FieldsOk(c: Context) returns (ok: bool)
    ensures ok <==> NoRepeats(FieldIds(c.fields)) && forall i | 0 <= i < |c.fields| :: FieldOk(c, c.fields[i])
  {
    FieldIdsIndexed(c.fields);
    ghost var ids := FieldIds(c.fields);
    var seen: set<int> := {};
    for i := 0 to |c.fields|
      invariant NoRepeats(ids[..i]) && (forall j | 0 <= j < i :: FieldOk(c, c.fields[j]))
      invariant forall t :: t in seen <==> t in ids[..i]
    {
      if c.fields[i].id in seen || !FieldOk(c, c.fields[i]) {
        assert c.fields[i].id in seen ==> ids[i] in ids[..i];
        return false;
      }
      seen := seen + {c.fields[i].id};
      assert ids[..i + 1] == ids[..i] + [ids[i]];
    }
    assert ids[..|c.fields|] == ids;
    ok := true;
  }

  // The messages

  predicate Covers(selected: set<int>, columns: seq<int>) {
    forall i | 0 <= i < |columns| :: columns[i] in selected
  }

  predicate KeyShown(c: Context, selected: set<int>, key: Key) {
    (forall i | 0 <= i < |key.tables| :: key.tables[i] in c.tables) && Covers(selected, key.columns)
  }

  predicate PathShown(selected: set<int>, path: Path) {
    forall i | 0 <= i < |path.edges| ::
      Covers(selected, path.edges[i].sourceColumns) && Covers(selected, path.edges[i].targetColumns)
  }

  function FieldJson(fields: seq<Field>, id: int): Json {
    if fields == [] then Text("") else if fields[0].id == id then fields[0].json else FieldJson(fields[1..], id)
  }

  function FieldsJson(c: Context, selected: seq<int>): seq<Json> {
    if selected == [] then [] else [FieldJson(c.fields, selected[0])] + FieldsJson(c, selected[1..])
  }

  function KeysJson(c: Context, selected: set<int>, keys: seq<Key>): seq<Json> {
    if keys == [] then []
    else (if KeyShown(c, selected, keys[0]) then [keys[0].json] else []) + KeysJson(c, selected, keys[1..])
  }

  function PathsJson(selected: set<int>, paths: seq<Path>): seq<Json> {
    if paths == [] then []
    else (if PathShown(selected, paths[0]) then [paths[0].json] else []) + PathsJson(selected, paths[1..])
  }

  /** Members in the order of their names. */
  function Members(c: Context, fields: Json, foreignKeys: Json, paths: Json, primaryKeys: Json): seq<Member> {
    [ Member("allowed_functions", c.allowedFunctions),
      Member("candidate_fields", fields),
      Member("candidate_tables", c.candidateTables),
      Member("dialect", c.dialect),
      Member("foreign_keys", foreignKeys),
      Member("join_paths", paths),
      Member("max_result_rows", c.maxResultRows),
      Member("normalized_question", c.normalizedQuestion),
      Member("normalized_time", c.normalizedTime),
      Member("primary_keys", primaryKeys),
      Member("prompt_version", c.promptVersion),
      Member("question", c.question),
      Member("schema_version", c.schemaVersion)]
  }

  function Payload(c: Context, selected: seq<int>): Json {
    var chosen := Elements(selected);
    Object(Members(c, List(FieldsJson(c, selected)), List(KeysJson(c, chosen, c.snapshot.foreignKeys)),
                   List(PathsJson(chosen, c.paths)), List(KeysJson(c, chosen, c.snapshot.primaryKeys))))
  }

  function BuildMessages(c: Context, selected: seq<int>): seq<string> {
    [c.systemPrompt, Render(Payload(c, selected))]
  }

  /** Bytes of all messages, divided by three and rounded up. */
  function EstimateTokens(messages: seq<string>): int {
    (TotalBytes(messages) + 2) / 3
  }

  function TotalBytes(messages: seq<string>): int {
    if messages == [] then 0 else |messages[0]| + TotalBytes(messages[1..])
  }

  function Estimate(c: Context, selected: seq<int>): int {
    EstimateTokens(BuildMessages(c, selected))
  }

  // What the prompt shows

  lemma {:induction false} FieldFound(fields: seq<Field>, j: int)
    requires 0 <= j < |fields| && NoRepeats(FieldIds(fields))
    ensures FieldJson(fields, fields[j].id) == fields[j].json
  {
    FieldIdsIndexed(fields);
    if j > 0 {
      assert FieldIds(fields)[1..] == FieldIds(fields[1..]);
      FieldFound(fields[1..], j - 1);
      assert FieldIds(fields)[0] != FieldIds(fields)[j];
    }
  }

  /** The selected fields in their order, each with its own description. */
  lemma {:induction false} FieldsAreShown(c: Context, selected: seq<int>, i: int, j: int)
    requires NoRepeats(FieldIds(c.fields))
    requires 0 <= i < |selected| && 0 <= j < |c.fields| && selected[i] == c.fields[j].id
    ensures |FieldsJson(c, selected)| == |selected| && FieldsJson(c, selected)[i] == c.fields[j].json
  {
    FieldsJsonSize(c, selected[1..]);
    if i > 0 {
      FieldsAreShown(c, selected[1..], i - 1, j);
    } else {
      FieldFound(c.fields, j);
    }
  }

  /** The key joins candidate tables only, by selected columns only. */
  predicate Fits(c: Context, selected: set<int>, key: Key) {
    Elements(key.tables) <= Elements(c.tables) && Elements(key.columns) <= selected
  }

  lemma {:induction false} FitsWhenShown(c: Context, selected: set<int>, key: Key)
    ensures KeyShown(c, selected, key) <==> Fits(c, selected, key)
  {
    forall i | 0 <= i < |key.tables| ensures key.tables[i] in Elements(key.tables) {
    }
    forall i | 0 <= i < |key.columns| ensures key.columns[i] in Elements(key.columns) {
    }
    forall t ensures t in Elements(c.tables) <==> t in c.tables {
    }
  }

  /** Each key is shown, at its place, exactly when all its tables are candidates and all its columns selected. */
  lemma {:induction false} KeysAreShown(c: Context, selected: set<int>, before: seq<Key>, key: Key, after: seq<Key>)
    ensures KeysJson(c, selected, before + [key] + after)
      == KeysJson(c, selected, before) + (if Fits(c, selected, key) then [key.json] else [])
         + KeysJson(c, selected, after)
  {
    if before == [] {
      FitsWhenShown(c, selected, key);
      assert ([key] + after)[1..] == after && before + [key] + after == [key] + after;
    } else {
      assert (before + [key] + after)[1..] == before[1..] + [key] + after;
      KeysAreShown(c, selected, before[1..], key, after);
    }
  }

  /** Every edge of the path joins by selected columns only. */
  predicate Leads(selected: set<int>, path: Path) {
    forall edge | edge in path.edges :: Elements(edge.sourceColumns) + Elements(edge.targetColumns) <= selected
  }

  lemma {:induction false} CoversAll(selected: set<int>, columns: seq<int>)
    ensures Covers(selected, columns) <==> Elements(columns) <= selected
  {
    forall i | 0 <= i < |columns| ensures columns[i] in Elements(columns) {
    }
  }

  lemma {:induction false} LeadsWhenShown(selected: set<int>, path: Path)
    ensures PathShown(selected, path) <==> Leads(selected, path)
  {
    forall i | 0 <= i < |path.edges|
      ensures Elements(path.edges[i].sourceColumns) + Elements(path.edges[i].targetColumns) <= selected
        <==> Covers(selected, path.edges[i].sourceColumns) && Covers(selected, path.edges[i].targetColumns)
    {
      CoversAll(selected, path.edges[i].sourceColumns);
      CoversAll(selected, path.edges[i].targetColumns);
    }
  }

  lemma {:induction false} FirstPath(selected: set<int>, path: Path, after: seq<Path>)
    ensures PathsJson(selected, [path] + after)
      == (if Leads(selected, path) then [path.json] else []) + PathsJson(selected, after)
  {
    LeadsWhenShown(selected, path);
    assert ([path] + after)[1..] == after;
  }

  /** Each join path is shown, at its place, exactly when all its columns are selected. */
  lemma {:induction false} PathsAreShown(selected: set<int>, before: seq<Path>, path: Path, after: seq<Path>)
    ensures PathsJson(selected, before + [path] + after)
      == PathsJson(selected, before) + (if Leads(selected, path) then [path.json] else []) + PathsJson(selected, after)
  {
    if before == [] {
      FirstPath(selected, path, after);
      assert before + [path] + after == [path] + after;
    } else {
      var rest := before[1..] + [path] + after;
      assert before + [path] + after == [before[0]] + rest && before == [before[0]] + before[1..];
      FirstPath(selected, before[0], rest);
      FirstPath(selected, before[0], before[1..]);
      PathsAreShown(selected, before[1..], path, after);
    }
  }

  /** Under these names, and no others, the prompt holds the parts of the context and what the selection shows. */
  lemma {:induction false} PayloadHolds(c: Context, selected: seq<int>, members: seq<Member>)
    requires Payload(c, selected) == Object(members)
    ensures |members| == 13
    ensures Member("candidate_fields", List(FieldsJson(c, selected))) in members
    ensures Member("primary_keys", List(KeysJson(c, Elements(selected), c.snapshot.primaryKeys))) in members
    ensures Member("foreign_keys", List(KeysJson(c, Elements(selected), c.snapshot.foreignKeys))) in members
    ensures Member("join_paths", List(PathsJson(Elements(selected), c.paths))) in members
    ensures Member("candidate_tables", c.candidateTables) in members && Member("question", c.question) in members
    ensures Member("allowed_functions", c.allowedFunctions) in members && Member("dialect", c.dialect) in members
    ensures Member("max_result_rows", c.maxResultRows) in members
    ensures Member("normalized_question", c.normalizedQuestion) in members
    ensures Member("normalized_time", c.normalizedTime) in members
    ensures Member("prompt_version", c.promptVersion) in members
    ensures Member("schema_version", c.schemaVersion) in members
  {
    assert forall i | 0 <= i < 13 :: members[i] in members;
    assert members[0] in members && members[1] in members && members[2] in members && members[3] in members;
    assert members[4] in members && members[5] in members && members[6] in members && members[7] in members;
    assert members[8] in members && members[9] in members && members[10] in members && members[11] in members;
    assert members[12] in members;
  }

  /** The members of an object take their names, values, three signs each, and a comma between two. */
  lemma {:induction false} RenderedObjectBytes(members: seq<Member>)
    ensures |Render(Object(members))| == 2 + |RenderMembers(members)|
    ensures |RenderMembers(members)| == if members == [] then 0 else MemberBytes(members) - 1
  {
    if members != [] {
      RenderedObjectBytes(members[1..]);
    }
  }

  function MemberBytes(members: seq<Member>): int {
    if members == [] then 0
    else |members[0].name| + |Render(members[0].value)| + 4 + MemberBytes(members[1..])
  }

  /** Three bytes to a token, the last one possibly not full. */
  lemma {:induction false} TokensTell(c: Context, selected: seq<int>)
    ensures
      var bytes := |c.systemPrompt| + |Render(Payload(c, selected))|;
      3 * Estimate(c, selected) - 3 < bytes <= 3 * Estimate(c, selected)
  {
    TwoMessages(c.systemPrompt, Render(Payload(c, selected)));
  }

  // A larger selection never has a smaller prompt

  lemma {:induction false} CoversMore(less: set<int>, more: set<int>, columns: seq<int>)
    requires less <= more && Covers(less, columns)
    ensures Covers(more, columns)
  {
  }

  lemma {:induction false} KeysGrow(c: Context, less: set<int>, more: set<int>, keys: seq<Key>)
    requires less <= more
    ensures ItemBytes(KeysJson(c, less, keys)) <= ItemBytes(KeysJson(c, more, keys))
    ensures |KeysJson(c, less, keys)| <= |KeysJson(c, more, keys)|
  {
    if keys != [] {
      KeysGrow(c, less, more, keys[1..]);
      var a := if KeyShown(c, less, keys[0]) then [keys[0].json] else [];
      var b := if KeyShown(c, more, keys[0]) then [keys[0].json] else [];
      if a != [] {
        CoversMore(less, more, keys[0].columns);
      }
      ItemBytesJoin(a, KeysJson(c, less, keys[1..]));
      ItemBytesJoin(b, KeysJson(c, more, keys[1..]));
      ItemBytesPositive(b);
    }
  }

  lemma {:induction false} PathShownMore(less: set<int>, more: set<int>, path: Path)
    requires less <= more && PathShown(less, path)
    ensures PathShown(more, path)
  {
    forall i | 0 <= i < |path.edges|
      ensures Covers(more, path.edges[i].sourceColumns) && Covers(more, path.edges[i].targetColumns)
    {
      CoversMore(less, more, path.edges[i].sourceColumns);
      CoversMore(less, more, path.edges[i].targetColumns);
    }
  }

  lemma {:induction false} PathsGrow(less: set<int>, more: set<int>, paths: seq<Path>)
    requires less <= more
    ensures ItemBytes(PathsJson(less, paths)) <= ItemBytes(PathsJson(more, paths))
    ensures |PathsJson(less, paths)| <= |PathsJson(more, paths)|
  {
    if paths != [] {
      PathsGrow(less, more, paths[1..]);
      var a := if PathShown(less, paths[0]) then [paths[0].json] else [];
      var b := if PathShown(more, paths[0]) then [paths[0].json] else [];
      if a != [] {
        PathShownMore(less, more, paths[0]);
      }
      ItemBytesJoin(a, PathsJson(less, paths[1..]));
      ItemBytesJoin(b, PathsJson(more, paths[1..]));
      ItemBytesPositive(b);
    }
  }

  lemma {:induction false} FieldsJsonJoin(c: Context, a: seq<int>, b: seq<int>)
    ensures FieldsJson(c, a + b) == FieldsJson(c, a) + FieldsJson(c, b)
  {
    if a == [] {
      assert a + b == b;
    } else {
      assert (a + b)[1..] == a[1..] + b;
      FieldsJsonJoin(c, a[1..], b);
    }
  }

  /** Taking one id out of a selection takes out exactly its bytes. */
  lemma {:induction false} FieldBytesSplit(c: Context, b: seq<int>, i: int)
    requires 0 <= i < |b|
    ensures ItemBytes(FieldsJson(c, b))
      == ItemBytes(FieldsJson(c, b[..i] + b[i + 1..])) + ItemBytes(FieldsJson(c, [b[i]]))
    ensures ItemBytes(FieldsJson(c, [b[i]])) > 0
  {
    var before, one, after := b[..i], [b[i]], b[i + 1..];
    assert b == before + one + after;
    FieldsJsonJoin(c, before + one, after);
    FieldsJsonJoin(c, before, one);
    FieldsJsonJoin(c, before, after);
    ItemBytesJoin(FieldsJson(c, before + one), FieldsJson(c, after));
    ItemBytesJoin(FieldsJson(c, before), FieldsJson(c, one));
    ItemBytesJoin(FieldsJson(c, before), FieldsJson(c, after));
    ItemBytesPositive(FieldsJson(c, one));
  }

  lemma {:induction false} FieldsGrow(c: Context, a: seq<int>, b: seq<int>)
    requires NoRepeats(a) && NoRepeats(b) && forall i | 0 <= i < |a| :: a[i] in b
    ensures ItemBytes(FieldsJson(c, a)) <= ItemBytes(FieldsJson(c, b))
    decreases |a|
  {
    if a == [] {
      ItemBytesPositive(FieldsJson(c, b));
    } else {
      var i :| 0 <= i < |b| && b[i] == a[0];
      var rest := b[..i] + b[i + 1..];
      assert forall j | 0 <= j < |rest| :: rest[j] == if j < i then b[j] else b[j + 1];
      forall j | 0 <= j < |a[1..]| ensures a[1..][j] in rest {
        assert a[1..][j] == a[j + 1] && a[j + 1] in b;
        var k :| 0 <= k < |b| && b[k] == a[j + 1];
        assert rest[if k < i then k else k - 1] == a[j + 1];
      }
      FieldsGrow(c, a[1..], rest);
      FieldBytesSplit(c, b, i);
      FieldBytesSplit(c, a, 0);
      assert a[..0] + a[1..] == a[1..];
    }
  }

  lemma {:induction false} FieldsJsonSize(c: Context, selected: seq<int>)
    ensures |FieldsJson(c, selected)| == |selected|
  {
    if selected != [] {
      FieldsJsonSize(c, selected[1..]);
    }
  }

  lemma {:induction false} MembersGrow(a: seq<Member>, b: seq<Member>)
    requires |a| == |b|
    requires forall i | 0 <= i < |a| :: |RenderMember(a[i])| <= |RenderMember(b[i])|
    ensures |RenderMembers(a)| <= |RenderMembers(b)|
  {
    if a != [] {
      MembersGrow(a[1..], b[1..]);
    }
  }

  lemma {:induction false} KeyListGrows(c: Context, less: set<int>, more: set<int>, keys: seq<Key>)
    requires less <= more
    ensures |Render(List(KeysJson(c, less, keys)))| <= |Render(List(KeysJson(c, more, keys)))|
  {
    KeysGrow(c, less, more, keys);
    ListGrows(KeysJson(c, less, keys), KeysJson(c, more, keys));
  }

  lemma {:induction false} FieldListGrows(c: Context, a: seq<int>, b: seq<int>)
    requires NoRepeats(a) && NoRepeats(b) && Elements(a) <= Elements(b)
    ensures |Render(List(FieldsJson(c, a)))| <= |Render(List(FieldsJson(c, b)))|
  {
    forall i | 0 <= i < |a| ensures a[i] in b {
      assert a[i] in Elements(a);
    }
    FieldsGrow(c, a, b);
    FieldsJsonSize(c, a);
    FieldsJsonSize(c, b);
    ListGrows(FieldsJson(c, a), FieldsJson(c, b));
  }

  /** The estimate is monotone in the selected set, although keys and join paths appear with their columns. */
  lemma {:induction false} EstimateGrows(c: Context, a: seq<int>, b: seq<int>)
    requires NoRepeats(a) && NoRepeats(b) && Elements(a) <= Elements(b)
    ensures Estimate(c, a) <= Estimate(c, b)
  {
    var less, more := Elements(a), Elements(b);
    FieldListGrows(c, a, b);
    KeyListGrows(c, less, more, c.snapshot.foreignKeys);
    KeyListGrows(c, less, more, c.snapshot.primaryKeys);
    PathsGrow(less, more, c.paths);
    ListGrows(PathsJson(less, c.paths), PathsJson(more, c.paths));
    PayloadGrows(c, List(FieldsJson(c, a)), List(FieldsJson(c, b)),
                 List(KeysJson(c, less, c.snapshot.foreignKeys)), List(KeysJson(c, more, c.snapshot.foreignKeys)),
                 List(PathsJson(less, c.paths)), List(PathsJson(more, c.paths)),
                 List(KeysJson(c, less, c.snapshot.primaryKeys)), List(KeysJson(c, more, c.snapshot.primaryKeys)));
    TwoMessages(c.systemPrompt, Render(Payload(c, a)));
    TwoMessages(c.systemPrompt, Render(Payload(c, b)));
  }

  lemma {:induction false} PayloadGrows(c: Context, f: Json, fMore: Json, k: Json, kMore: Json,
                                        p: Json, pMore: Json, q: Json, qMore: Json)
    requires |Render(f)| <= |Render(fMore)| && |Render(k)| <= |Render(kMore)|
    requires |Render(p)| <= |Render(pMore)| && |Render(q)| <= |Render(qMore)|
    ensures |RenderMembers(Members(c, f, k, p, q))| <= |RenderMembers(Members(c, fMore, kMore, pMore, qMore))|
  {
    var a, b := Members(c, f, k, p, q), Members(c, fMore, kMore, pMore, qMore);
    forall i | 0 <= i < |a| ensures |RenderMember(a[i])| <= |RenderMember(b[i])| {
      assert a[i] == b[i] || i == 1 || i == 4 || i == 5 || i == 9;
    }
    MembersGrow(a, b);
  }

  lemma {:induction false} TwoMessages(a: string, b: string)
    ensures TotalBytes([a, b]) == |a| + |b|
  {
    assert [a, b][1..] == [b] && [b][1..] == [];
    assert TotalBytes([b]) == |b| + TotalBytes([]);
    assert TotalBytes([a, b]) == |a| + TotalBytes([b]);
  }
}

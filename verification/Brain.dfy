/**
  The brain store: tables of entities, facts, relations and tasks, the projection index that follows
  them, and every operation on them as a function from store to store.  Tables are kept most recently
  updated first, which is the order every query asks for.
 */
module Brain {
  import opened Clock
  import opened Options
  import opened Text
  import opened Ranking

  const WINDOW: nat := 512
  const MEMORY_WINDOW: nat := 256
  const MERGE_THRESHOLD: real := 0.72

  datatype Row<T> = Row(id: string, archived: bool, updatedAt: int, body: T)

  datatype Entity = Entity(
    kind: string, subtype: string, title: string, content: string, scope: string, links: string,
    salience: real, confidence: real, sourceRef: string)

  datatype Fact = Fact(
    entityId: string, content: string, scope: string, salience: real, confidence: real, sourceRef: string)

  datatype Relation = Relation(kind: string, fromId: string, toId: string, metadata: string, confidence: real)

  datatype Task = Task(
    title: string, summary: string, status: string, priority: string, dueAt: Option<int>, scope: string,
    links: string, salience: real, confidence: real, sourceRef: string)

  /** A row of the projection index. */
  datatype Entry = Entry(namespace: string, key: string, text: string)

  /** A row of the ingest log. */
  datatype LogRow = LogRow(kind: string, fingerprint: string, target: string, at: int)

  datatype Store = Store(
    entities: seq<Row<Entity>>, facts: seq<Row<Fact>>, relations: seq<Row<Relation>>, tasks: seq<Row<Task>>,
    index: seq<Entry>, log: map<string, LogRow>, now: int)

  /** The parts of the program this model takes as given: Unicode tables, the hash, JSON text, the
      text heuristics, identities and configuration. */
  datatype Env = Env(
    letters: char -> bool,
    hash: string -> string,
    parseScope: string -> Option<map<string, string>>,
    messageScope: (string, string, string) -> string,
    toolScope: (string, string) -> string,
    parseLinks: string -> seq<string>,
    encodeLinks: seq<string> -> string,
    sourceNote: string -> string,
    channelNote: (string, string) -> string,
    targetNote: (string, seq<string>) -> string,
    artifactsIn: string -> seq<string>,
    environmentsIn: string -> seq<(string, string)>,
    taskIn: string -> Option<string>,
    commitmentIn: string -> Option<string>,
    priorityIn: string -> string,
    dueIn: string -> Option<int>,
    showDue: Option<int> -> string,
    contextOf: (Task, seq<string>) -> string,
    ownerId: string, runtimeId: string, workspaceId: string, projectId: string,
    runtimeScope: string, workspaceScope: string, projectScope: string,
    osName: string, workspaceTitle: string, workspacePath: string,
    enabled: bool, autoMessages: bool, autoTools: bool, autoCommitments: bool,
    staleTaskHours: int, archiveDecayDays: int)
  {
    /** A scope object written out parses again. */
    ghost predicate Faithful() {
      forall c, h, s :: parseScope(messageScope(c, h, s)).Some?
    }
  }

  datatype Message = Message(connector: string, channelId: string, sender: string, body: string)

  // ----- tables -----

  function Keep<T>(p: T -> bool, xs: seq<T>): seq<T> {
    if xs == [] then []
    else if p(xs[0]) then [xs[0]] + Keep(p, xs[1..])
    else Keep(p, xs[1..])
  }

  lemma {:induction false} KeepMembers<T>(p: T -> bool, xs: seq<T>)
    ensures forall i :: 0 <= i < |Keep(p, xs)| ==> Keep(p, xs)[i] in xs && p(Keep(p, xs)[i])
    ensures forall x :: x in Keep(p, xs) <==> x in xs && p(x)
  {
    if xs != [] {
      KeepMembers(p, xs[1..]);
      assert xs == [xs[0]] + xs[1..];
    }
  }

  function Not<T>(p: T -> bool): T -> bool {
    x => !p(x)
  }

  function OtherId<T>(id: string): Row<T> -> bool {
    (r: Row<T>) => r.id != id
  }

  function OtherKey(namespace: string, key: string): Entry -> bool {
    (x: Entry) => x.namespace != namespace || x.key != key
  }

  /** Insert or update by id: the row becomes the most recent one. */
  function Put<T>(rows: seq<Row<T>>, row: Row<T>): seq<Row<T>> {
    [row] + Keep(OtherId(row.id), rows)
  }

  function MarkArchived<T>(rows: seq<Row<T>>, now: int): (r: seq<Row<T>>)
    ensures |r| == |rows|
    ensures forall i :: 0 <= i < |rows| ==> r[i] == rows[i].(archived := true, updatedAt := now)
  {
    seq(|rows|, i requires 0 <= i < |rows| => rows[i].(archived := true, updatedAt := now))
  }

  /** One bulk statement: the rows it touches are archived and become the most recent ones. */
  function Archive<T>(p: Row<T> -> bool, rows: seq<Row<T>>, now: int): seq<Row<T>> {
    MarkArchived(Keep(p, rows), now) + Keep(Not(p), rows)
  }

  function Take<T>(xs: seq<T>, n: nat): seq<T> {
    if |xs| <= n then xs else xs[..n]
  }

  function Visible<T>(includeArchived: bool): Row<T> -> bool {
    (r: Row<T>) => includeArchived || !r.archived
  }

  /** The window is cut before archived rows are skipped. */
  function Listed<T>(rows: seq<Row<T>>, includeArchived: bool): seq<Row<T>> {
    Keep(Visible(includeArchived), Take(rows, WINDOW))
  }

  function Find<T>(rows: seq<Row<T>>, id: string): Option<Row<T>> {
    if rows == [] then None else if rows[0].id == id then Some(rows[0]) else Find(rows[1..], id)
  }

  ghost function Ids<T>(rows: seq<Row<T>>): set<string> {
    set r | r in rows :: r.id
  }

  // ----- the projection index -----

  function PutEntry(index: seq<Entry>, e: Entry): seq<Entry> {
    [e] + DropEntry(index, e.namespace, e.key)
  }

  function DropEntry(index: seq<Entry>, namespace: string, key: string): seq<Entry> {
    Keep(OtherKey(namespace, key), index)
  }

  function Lookup(index: seq<Entry>, namespace: string, key: string): Option<string> {
    if index == [] then None
    else if index[0].namespace == namespace && index[0].key == key then Some(index[0].text)
    else Lookup(index[1..], namespace, key)
  }

  function EntityText(e: Entity): string {
    e.kind + " " + e.subtype + " " + e.title + " " + e.content + " " + e.scope
  }

  function FactText(f: Fact): string {
    f.content + " " + f.scope
  }

  function TaskText(env: Env, t: Task): string {
    t.title + " " + t.summary + " " + t.status + " " + t.priority + " " + env.showDue(t.dueAt)
  }

  function InNamespace(namespace: string): Entry -> bool {
    (x: Entry) => x.namespace == namespace
  }

  /** The candidates of a memory query: the most recent rows of the namespace. */
  function MemoryRows(index: seq<Entry>, namespace: string): seq<Entry> {
    Take(Keep(InNamespace(namespace), index), MEMORY_WINDOW)
  }

  function MemoryScores(env: Env, query: string, rows: seq<Entry>): (r: seq<real>)
    ensures |r| == |rows|
  {
    seq(|rows|, i requires 0 <= i < |rows| =>
      Similarity(Fingerprint(env.letters, query), Fingerprint(env.letters, rows[i].text)))
  }

  function AtLeastOne(n: nat): nat { if n == 0 then 1 else n }

  function QueryMemory(env: Env, index: seq<Entry>, namespace: string, query: string, limit: nat): (r: seq<Entry>)
    ensures |r| == Min(AtLeastOne(limit), |MemoryRows(index, namespace)|)
  {
    var rows := MemoryRows(index, namespace);
    var order := TopK(MemoryScores(env, query, rows), AtLeastOne(limit));
    seq(|order|, i requires 0 <= i < |order| => rows[order[i]])
  }

  // ----- single-record writes -----

  function ValidKind(kind: string): bool {
    kind == "person" || kind == "environment" || kind == "artifact" || kind == "task"
  }

  function ValidSubtype(subtype: string): bool {
    subtype in {"runtime", "workspace", "deployment", "project", "team", "place"}
  }

  function ValidStatus(status: string): bool {
    status in {"open", "in_progress", "blocked", "done", "cancelled"}
  }

  function UpsertEntity(s: Store, id: string, e: Entity): Store {
    s.(entities := Put(s.entities, Row(id, false, s.now, e)),
       index := PutEntry(s.index, Entry("brain-entities", id, EntityText(e))),
       now := s.now + 1)
  }

  function UpsertFact(s: Store, id: string, f: Fact): Store {
    s.(facts := Put(s.facts, Row(id, false, s.now, f)),
       index := PutEntry(s.index, Entry("brain-facts", id, FactText(f))),
       now := s.now + 1)
  }

  function OtherTriple(rel: Relation): Row<Relation> -> bool {
    (r: Row<Relation>) => r.body.kind != rel.kind || r.body.fromId != rel.fromId || r.body.toId != rel.toId
  }

  /** Relations conflict on (kind, from, to). */
  function UpsertRelation(env: Env, s: Store, rel: Relation): Store {
    var id := "relation:" + env.hash(rel.kind + ":" + rel.fromId + ":" + rel.toId);
    s.(relations := [Row(id, false, s.now, rel)] + Keep(OtherTriple(rel), s.relations),
       now := s.now + 1)
  }

  /** Log rows conflict on the source reference. */
  function LogIngest(s: Store, ref: string, kind: string, fingerprint: string, target: string): Store {
    s.(log := s.log[ref := LogRow(kind, fingerprint, target, s.now)], now := s.now + 1)
  }

  function UpsertTask(env: Env, s: Store, id: string, t: Task): Store {
    s.(tasks := Put(s.tasks, Row(id, false, s.now, t)),
       index := PutEntry(
         PutEntry(s.index, Entry("brain-tasks", id, TaskText(env, t))),
         Entry("brain-suggestions", "suggestion:" + id, t.summary + " " + t.priority)),
       now := s.now + 1)
  }

  // ----- scopes, titles and merging -----

  function TrimLeft(s: string): string {
    if s != "" && IsWhitespace(s[0]) then TrimLeft(s[1..]) else s
  }

  function TrimRight(s: string): string {
    if s != "" && IsWhitespace(s[|s| - 1]) then TrimRight(s[..|s| - 1]) else s
  }

  function Trim(s: string): string { TrimRight(TrimLeft(s)) }

  function Truncate(s: string, max: nat): string {
    if |s| <= max then s else s[..if max < 3 then 0 else max - 3] + "..."
  }

  function NonEmptyOr(value: string, fallback: string): string {
    if Trim(value) == "" then Trim(fallback) else Trim(value)
  }

  function PreferredTitle(primary: string, fallback: string): string {
    Truncate(NonEmptyOr(primary, fallback), 80)
  }

  function DefaultSourceRef(env: Env, sourceRef: string, seed: string, prefix: string): string {
    if sourceRef == "" then prefix + ":" + env.hash(seed) else sourceRef
  }

  predicate ScopeMatches(env: Env, record: string, query: string) {
    || Trim(query) == ""
    || Trim(query) == "{}"
    || (var q, r := env.parseScope(query), env.parseScope(record);
        q.Some? && r.Some? && forall k :: k in q.value ==> k in r.value && r.value[k] == q.value[k])
  }

  function MergeScore(env: Env, summary: string, t: Task): real {
    Similarity(Fingerprint(env.letters, summary), Fingerprint(env.letters, t.summary))
  }

  predicate Mergeable(env: Env, summary: string, scope: string, r: Row<Task>) {
    ScopeMatches(env, r.body.scope, scope) && MergeScore(env, summary, r.body) >= MERGE_THRESHOLD
  }

  /** The best mergeable row; of equally good ones the last, as `max_by` returns. */
  function Best(env: Env, summary: string, scope: string, rows: seq<Row<Task>>): Option<Row<Task>> {
    if rows == [] then None
    else
      var later := Best(env, summary, scope, rows[1..]);
      if !Mergeable(env, summary, scope, rows[0]) then later
      else if later.Some? && MergeScore(env, summary, later.value.body) >= MergeScore(env, summary, rows[0].body)
      then later
      else Some(rows[0])
  }

  function FindSimilar(env: Env, s: Store, summary: string, scope: string): Option<Row<Task>> {
    Best(env, summary, scope, Listed(s.tasks, false))
  }

  function HashedTaskId(env: Env, summary: string, scope: string): string {
    "task:" + env.hash(summary + ":" + scope)
  }

  function MergeTarget(env: Env, s: Store, t: Task): string {
    var similar := FindSimilar(env, s, t.summary, t.scope);
    if similar.Some? then similar.value.id else HashedTaskId(env, t.summary, t.scope)
  }

  function MergeTask(env: Env, s: Store, t: Task): Store {
    UpsertTask(env, s, MergeTarget(env, s, t), t)
  }

  function DueAt(env: Env, now: int, text: string): Option<int> {
    match env.dueIn(text)
    case None => None
    case Some(delay) => Some(now + delay)
  }

  // ----- ingestion -----

  function ContactId(env: Env, m: Message): string {
    "person:contact:" + m.connector + ":" + env.hash(m.sender)
  }

  function MessageRef(env: Env, m: Message): string {
    "message:" + m.connector + ":" + m.channelId + ":" + env.hash(m.sender) + ":" + env.hash(m.body)
  }

  function MessageScope(env: Env, m: Message): string {
    env.messageScope(m.connector, m.channelId, m.sender)
  }

  function MessageFactId(env: Env, m: Message): string {
    "fact:" + ContactId(env, m) + ":" + env.hash(MessageRef(env, m))
  }

  function ArtifactId(env: Env, artifact: string): string { "artifact:" + env.hash(artifact) }

  function EnvironmentId(env: Env, mention: (string, string)): string {
    "environment:" + mention.0 + ":" + env.hash(mention.1)
  }

  function IngestContact(env: Env, s: Store, m: Message): Store {
    var scope, ref, contact := MessageScope(env, m), MessageRef(env, m), ContactId(env, m);
    var s1 := UpsertEntity(s, contact, Entity("person", "contact", m.sender,
      "Observed through " + m.connector + " in channel " + m.channelId, scope, "[]", 0.58, 0.96, ref));
    var s2 := UpsertRelation(env, s1, Relation("knows", env.ownerId, contact, env.channelNote(m.connector, m.channelId), 0.92));
    var s3 := UpsertRelation(env, s2, Relation("mentioned_with", contact, env.workspaceId, env.sourceNote(ref), 0.65));
    UpsertFact(s3, MessageFactId(env, m), Fact(contact, m.body, scope, 0.62, 0.84, ref))
  }

  function IngestArtifact(env: Env, s: Store, m: Message, artifact: string): Store {
    var id, ref := ArtifactId(env, artifact), MessageRef(env, m);
    var s1 := UpsertEntity(s, id, Entity("artifact", "reference", artifact,
      "Referenced in inbound " + m.connector + " message", MessageScope(env, m), "[]", 0.56, 0.85, ref));
    UpsertRelation(env, s1, Relation("mentioned_with", ContactId(env, m), id, env.sourceNote(ref), 0.74))
  }

  function IngestArtifacts(env: Env, s: Store, m: Message, artifacts: seq<string>): Store {
    if artifacts == [] then s
    else IngestArtifact(env, IngestArtifacts(env, s, m, artifacts[..|artifacts| - 1]), m, artifacts[|artifacts| - 1])
  }

  function IngestEnvironment(env: Env, s: Store, m: Message, mention: (string, string)): Store {
    var id, ref := EnvironmentId(env, mention), MessageRef(env, m);
    var s1 := UpsertEntity(s, id, Entity("environment", mention.0, mention.1,
      "Mentioned " + mention.0 + " context", MessageScope(env, m), "[]", 0.52, 0.78, ref));
    UpsertRelation(env, s1, Relation("mentioned_with", ContactId(env, m), id, env.sourceNote(ref), 0.7))
  }

  function IngestEnvironments(env: Env, s: Store, m: Message, mentions: seq<(string, string)>): Store {
    if mentions == [] then s
    else IngestEnvironment(env, IngestEnvironments(env, s, m, mentions[..|mentions| - 1]), m, mentions[|mentions| - 1])
  }

  function ArtifactIds(env: Env, artifacts: seq<string>): (ids: seq<string>)
    ensures |ids| == |artifacts|
  {
    seq(|artifacts|, i requires 0 <= i < |artifacts| => ArtifactId(env, artifacts[i]))
  }

  function EnvironmentIds(env: Env, mentions: seq<(string, string)>): (ids: seq<string>)
    ensures |ids| == |mentions|
  {
    seq(|mentions|, i requires 0 <= i < |mentions| => EnvironmentId(env, mentions[i]))
  }

  /** The entities a message mentions, its sender first. */
  function LinkedIds(env: Env, m: Message): seq<string> {
    [ContactId(env, m)] + ArtifactIds(env, env.artifactsIn(m.body)) + EnvironmentIds(env, env.environmentsIn(m.body))
  }

  function MessageTask(env: Env, now: int, m: Message, summary: string): Task {
    Task(PreferredTitle(summary, summary), summary, "open", env.priorityIn(m.body), DueAt(env, now, m.body),
         MessageScope(env, m), env.encodeLinks(LinkedIds(env, m)), 0.84, 0.88, MessageRef(env, m))
  }

  function IngestTask(env: Env, s: Store, m: Message, summary: string): Store {
    var t, ref := MessageTask(env, s.now, m, summary), MessageRef(env, m);
    var id := MergeTarget(env, s, t);
    var s1 := MergeTask(env, s, t);
    var s2 := UpsertRelation(env, s1, Relation("assigned_to", id, env.ownerId, env.sourceNote(ref), 0.86));
    UpsertRelation(env, s2, Relation("about", id, ContactId(env, m), env.sourceNote(ref), 0.78))
  }

  /** The store in which `ingest_message` looks for a task to merge with. */
  function BeforeTask(env: Env, s: Store, m: Message): Store {
    var s1 := IngestContact(env, s, m);
    var s2 := IngestArtifacts(env, s1, m, env.artifactsIn(m.body));
    IngestEnvironments(env, s2, m, env.environmentsIn(m.body))
  }

  /** The rows `ingest_message` writes. */
  function IngestRows(env: Env, s: Store, m: Message): Store {
    var s3 := BeforeTask(env, s, m);
    match env.taskIn(m.body)
    case None => s3
    case Some(summary) => IngestTask(env, s3, m, summary)
  }

  /** The ids `ingest_message` logs: what the message mentions, and its task. */
  function IngestedIds(env: Env, s: Store, m: Message): seq<string> {
    var s3 := BeforeTask(env, s, m);
    match env.taskIn(m.body)
    case None => LinkedIds(env, m)
    case Some(summary) => LinkedIds(env, m) + [MergeTarget(env, s3, MessageTask(env, s3.now, m, summary))]
  }

  /** `ingest_message` */
  function IngestMessage(env: Env, s: Store, m: Message): Store {
    LogIngest(IngestRows(env, s, m), MessageRef(env, m), "message", Fingerprint(env.letters, m.body),
      env.targetNote("linked_ids", IngestedIds(env, s, m)))
  }

  function ReplyRef(env: Env, m: Message, reply: string): string {
    "assistant:" + m.connector + ":" + m.channelId + ":" + env.hash(reply)
  }

  function ReplyTask(env: Env, now: int, m: Message, reply: string, summary: string): Task {
    Task(PreferredTitle(summary, reply), summary, "in_progress", env.priorityIn(reply), DueAt(env, now, reply),
         MessageScope(env, m), env.encodeLinks([env.ownerId]), 0.74, 0.72, ReplyRef(env, m, reply))
  }

  /** `ingest_assistant_reply` */
  function IngestReply(env: Env, s: Store, m: Message, reply: string): Store {
    match env.commitmentIn(reply)
    case None => s
    case Some(summary) =>
      var ref, t := ReplyRef(env, m, reply), ReplyTask(env, s.now, m, reply, summary);
      var id := MergeTarget(env, s, t);
      var s1 := UpsertRelation(env, MergeTask(env, s, t), Relation("assigned_to", id, env.ownerId, env.sourceNote(ref), 0.78));
      LogIngest(s1, ref, "assistant", Fingerprint(env.letters, reply), env.targetNote("task_id", [id]))
  }

  predicate ContainsText(text: string, part: string) {
    part <= text || (text != "" && ContainsText(text[1..], part))
  }

  predicate Actionable(status: string) {
    status == "open" || status == "in_progress" || status == "blocked"
  }

  predicate RelatedToTool(env: Env, target: string, summary: string, t: Task) {
    && Actionable(t.status)
    && (|| ContainsText(Lower(t.summary), Lower(target))
        || ContainsText(Lower(t.title), Lower(target))
        || MergeScore(env, summary, t) >= MERGE_THRESHOLD)
  }

  function FirstRelated(env: Env, target: string, summary: string, rows: seq<Row<Task>>): Option<Row<Task>> {
    if rows == [] then None
    else if RelatedToTool(env, target, summary, rows[0].body) then Some(rows[0])
    else FirstRelated(env, target, summary, rows[1..])
  }

  /** The store a tool result leaves before it looks for a task to close. */
  function ToolFacts(env: Env, s: Store, target: string, priority: string, summary: string, data: string): Store {
    var ref := ToolRef(env, target, summary, data);
    var scope, result := env.toolScope(target, priority), NonEmptyOr(summary, target);
    var artifact := ToolArtifactId(env, target);
    var s1 := UpsertEntity(s, artifact, Entity("artifact", "tool-result", target,
      "Successful tool execution: " + result, scope, "[]", 0.68, 0.92, ref));
    var s2 := UpsertFact(s1, "fact:" + artifact + ":" + env.hash(ref),
      Fact(artifact, Truncate(result + " " + data, 400), scope, 0.7, 0.9, ref));
    UpsertFact(s2, "fact:" + env.workspaceId + ":" + env.hash(target),
      Fact(env.workspaceId, "Tool " + target + " succeeded with " + result, scope, 0.58, 0.86, ref))
  }

  function ToolRef(env: Env, target: string, summary: string, data: string): string {
    "tool:" + target + ":" + env.hash(summary + ":" + data)
  }

  function ToolArtifactId(env: Env, target: string): string { "artifact:tool:" + env.hash(target) }

  /** The rows `ingest_tool_result` writes for a successful outcome: it also closes the first related task. */
  function ToolRows(env: Env, s: Store, target: string, priority: string, summary: string, data: string): Store {
    var s3 := ToolFacts(env, s, target, priority, summary, data);
    match FirstRelated(env, target, NonEmptyOr(summary, target), Listed(s3.tasks, false))
    case None => s3
    case Some(row) =>
      UpsertTask(env, s3, row.id,
        row.body.(status := "done", confidence := 0.96, sourceRef := ToolRef(env, target, summary, data)))
  }

  function IngestTool(env: Env, s: Store, target: string, priority: string, summary: string, data: string): Store {
    LogIngest(ToolRows(env, s, target, priority, summary, data), ToolRef(env, target, summary, data), "tool",
      Fingerprint(env.letters, summary + " " + data), env.targetNote("artifact_id", [ToolArtifactId(env, target)]))
  }

  // ----- direct operations -----

  datatype RememberRequest = RememberRequest(
    kind: string, subtype: string, title: string, content: string, importance: real,
    scope: string, links: string, sourceRef: string)

  function Max(a: real, b: real): real { if a >= b then a else b }

  function FadedEntity(cutoff: int): Row<Entity> -> bool {
    (r: Row<Entity>) => !r.archived && r.body.salience < 0.35 && r.updatedAt < cutoff
  }

  function FadedFact(cutoff: int): Row<Fact> -> bool {
    (r: Row<Fact>) => !r.archived && r.body.salience < 0.35 && r.updatedAt < cutoff
  }

  function FadedTask(cutoff: int): Row<Task> -> bool {
    (r: Row<Task>) => !r.archived && r.body.salience < 0.5
                      && (r.body.status == "done" || r.body.status == "cancelled") && r.updatedAt < cutoff
  }

  function Cutoff(env: Env, now: int): int {
    now - env.archiveDecayDays * DAY
  }

  /** `apply_retention`: rows of little salience that have not been touched for long are archived. */
  function Retain(env: Env, s: Store): Store {
    var cutoff := Cutoff(env, s.now);
    s.(entities := Archive(FadedEntity(cutoff), s.entities, s.now),
       facts := Archive(FadedFact(cutoff), s.facts, s.now + 1),
       tasks := Archive(FadedTask(cutoff), s.tasks, s.now + 2),
       now := s.now + 3)
  }

  function LinkRecord(env: Env, s: Store, id: string, kind: string, links: seq<string>, ref: string): Store {
    if links == [] then s
    else UpsertRelation(env, LinkRecord(env, s, id, kind, links[..|links| - 1], ref),
      Relation(if kind == "task" then "about" else "mentioned_with", id, links[|links| - 1], env.sourceNote(ref), 0.74))
  }

  /** Whether `remember` rejects the request, after retention and before any other write. */
  predicate RememberRejects(q: RememberRequest) {
    q.kind != "task"
    && (!ValidKind(q.kind) || (q.kind == "environment" && q.subtype != "" && !ValidSubtype(q.subtype)))
  }

  function RememberRef(env: Env, q: RememberRequest): string {
    DefaultSourceRef(env, q.sourceRef, q.kind + ":" + q.subtype + ":" + q.title + ":" + q.content, "remember")
  }

  function RememberDigest(env: Env, q: RememberRequest): string {
    env.hash(q.kind + ":" + q.subtype + ":" + q.title + ":" + q.content + ":" + RememberRef(env, q))
  }

  function RememberedTask(env: Env, now: int, q: RememberRequest): Task {
    Task(PreferredTitle(q.title, q.content), NonEmptyOr(q.content, q.title), "open",
      env.priorityIn(q.content), DueAt(env, now, q.content), if q.scope == "" then "{}" else q.scope, q.links,
      Max(q.importance, 0.45), 0.92, DefaultSourceRef(env, RememberRef(env, q), q.title, "task"))
  }

  function RememberedEntityId(env: Env, q: RememberRequest): string {
    q.kind + ":" + q.subtype + ":" + env.hash(q.title + ":" + if q.scope == "" then "{}" else q.scope)
  }

  /** The rows `remember` writes for anything but a task. */
  function RememberEntity(env: Env, s: Store, q: RememberRequest): Store {
    var scope, links := if q.scope == "" then "{}" else q.scope, if q.links == "" then "[]" else q.links;
    var id, ref := RememberedEntityId(env, q), RememberRef(env, q);
    var s1 := UpsertEntity(s, id, Entity(q.kind, q.subtype, PreferredTitle(q.title, q.content), q.content,
      scope, links, Max(q.importance, 0.4), 0.95, ref));
    var s2 := UpsertFact(s1, "fact:" + id + ":" + env.hash(ref + ":" + q.content),
      Fact(id, q.content, scope, Max(q.importance, 0.35), 0.9, ref));
    LinkRecord(env, s2, id, q.kind, env.parseLinks(links), ref)
  }

  function LogRemember(env: Env, s: Store, q: RememberRequest, kind: string, id: string): Store {
    LogIngest(s, RememberRef(env, q), "remember", RememberDigest(env, q), env.targetNote(kind, [id]))
  }

  /** The id of the record `remember` writes, given the store after retention. */
  function RememberedId(env: Env, s1: Store, q: RememberRequest): string {
    if q.kind == "task" then MergeTarget(env, s1, RememberedTask(env, s1.now, q)) else RememberedEntityId(env, q)
  }

  function Remember(env: Env, s: Store, q: RememberRequest): Store {
    var s1 := Retain(env, s);
    if RememberRejects(q) then s1
    else if q.kind == "task" then
      LogRemember(env, MergeTask(env, s1, RememberedTask(env, s1.now, q)), q, "task_id", RememberedId(env, s1, q))
    else LogRemember(env, RememberEntity(env, s1, q), q, "entity_id", RememberedId(env, s1, q))
  }

  datatype UpdateRequest = UpdateRequest(
    taskId: string, summary: string, status: string, priority: string, dueAt: Option<int>, links: string,
    sourceRef: string)

  function UpdatedId(env: Env, q: UpdateRequest): string {
    if q.taskId == "" then "task:" + env.hash(q.summary) else q.taskId
  }

  /** The task `update_task_record` writes over what is stored under its id. */
  function UpdatedTask(env: Env, q: UpdateRequest, existing: Option<Row<Task>>): Task {
    var id := UpdatedId(env, q);
    var summary := NonEmptyOr(q.summary, if existing.Some? then existing.value.body.summary else id);
    Task(PreferredTitle(summary, summary), summary, q.status, if q.priority == "" then "normal" else q.priority,
      if q.dueAt.Some? then q.dueAt else if existing.Some? then existing.value.body.dueAt else None,
      if existing.Some? then existing.value.body.scope else "{}",
      if q.links != "" then q.links else if existing.Some? then existing.value.body.links else "[]",
      0.8, 0.95, DefaultSourceRef(env, q.sourceRef, id, "task-update"))
  }

  /** `update_task_record`; an unsupported status changes nothing. */
  function UpdateTask(env: Env, s: Store, q: UpdateRequest): Store {
    if !ValidStatus(q.status) then s
    else
      var id := UpdatedId(env, q);
      var t := UpdatedTask(env, q, Find(Listed(s.tasks, true), id));
      LinkRecord(env, UpsertTask(env, s, id, t), id, "task", env.parseLinks(t.links), t.sourceRef)
  }

  datatype Target = OfEntity | OfTask | OfFact | OfRelation

  /** The kinds `forget` understands. */
  function ForgetTarget(kind: string): Option<Target> {
    if kind in {"person", "environment", "artifact", "", "entity"} then Some(OfEntity)
    else if kind == "task" then Some(OfTask)
    else if kind == "fact" then Some(OfFact)
    else if kind == "relation" then Some(OfRelation)
    else None
  }

  function IsId<T>(id: string): Row<T> -> bool {
    (r: Row<T>) => r.id == id
  }

  function OwnedBy(id: string): Row<Fact> -> bool {
    (r: Row<Fact>) => r.body.entityId == id
  }

  function Touching(id: string): Row<Relation> -> bool {
    (r: Row<Relation>) => r.body.fromId == id || r.body.toId == id
  }

  function ForgetArchive(s: Store, target: Target, id: string): Store {
    match target
    case OfEntity =>
      s.(entities := Archive(IsId(id), s.entities, s.now),
         facts := Archive(OwnedBy(id), s.facts, s.now + 1),
         relations := Archive(Touching(id), s.relations, s.now + 2),
         now := s.now + 3)
    case OfTask => s.(tasks := Archive(IsId(id), s.tasks, s.now), now := s.now + 1)
    case OfFact => s.(facts := Archive(IsId(id), s.facts, s.now), now := s.now + 1)
    case OfRelation =>
      s.(relations := Archive(IsId(id), s.relations, s.now), now := s.now + 1)
  }

  function DropProjections(index: seq<Entry>, id: string): seq<Entry> {
    DropEntry(DropEntry(DropEntry(DropEntry(index, "brain-entities", id), "brain-facts", id), "brain-tasks", id),
              "brain-suggestions", "suggestion:" + id)
  }

  function ForgetDelete(s: Store, target: Target, id: string): Store {
    var rows :=
      match target
      case OfEntity =>
        s.(facts := Keep(Not(OwnedBy(id)), s.facts),
           relations := Keep(Not(Touching(id)), s.relations),
           entities := Keep(OtherId(id), s.entities))
      case OfTask =>
        s.(tasks := Keep(OtherId(id), s.tasks),
           relations := Keep(Not(Touching(id)), s.relations))
      case OfFact => s.(facts := Keep(OtherId(id), s.facts))
      case OfRelation => s.(relations := Keep(OtherId(id), s.relations));
    rows.(index := DropProjections(rows.index, id), now := s.now + 1)
  }

  /** `forget`; the empty mode means archive, and an unsupported kind or mode changes nothing. */
  function Forget(s: Store, kind: string, id: string, mode: string): Store {
    var target := ForgetTarget(kind);
    if target.None? then s
    else if mode == "" || mode == "archive" then ForgetArchive(s, target.value, id)
    else if mode == "delete" then ForgetDelete(s, target.value, id)
    else s
  }

  /** `ensure_baseline_context`, run when the manager is built. */
  function Baseline(env: Env, s: Store): Store {
    var ref := "brain:baseline";
    var s1 := UpsertEntity(s, env.ownerId, Entity("person", "owner", "Local Owner",
      "Primary local OpenPinch operator", "{}", "[]", 0.95, 0.99, ref));
    var s2 := UpsertEntity(s1, env.runtimeId, Entity("environment", "runtime", env.osName + " runtime",
      "OpenPinch runtime on " + env.osName, env.runtimeScope, "[]", 0.82, 0.98, ref));
    var s3 := UpsertEntity(s2, env.workspaceId, Entity("environment", "workspace", env.workspaceTitle,
      "Workspace rooted at " + env.workspacePath, env.workspaceScope, "[]", 0.84, 0.98, ref));
    var s4 := UpsertEntity(s3, env.projectId, Entity("environment", "project", env.workspaceTitle,
      "Project context for " + env.workspaceTitle, env.projectScope, "[]", 0.8, 0.94, ref));
    var s5 := UpsertRelation(env, s4, Relation("owns", env.ownerId, env.workspaceId, env.sourceNote(ref), 0.96));
    var s6 := UpsertRelation(env, s5, Relation("belongs_to", env.workspaceId, env.projectId, env.sourceNote(ref), 0.94));
    UpsertRelation(env, s6, Relation("runs_in", env.projectId, env.runtimeId, env.sourceNote(ref), 0.93))
  }

  // ----- suggestions -----

  function PriorityWeight(priority: string): real {
    if priority == "urgent" then 1.0
    else if priority == "high" then 0.8
    else if priority == "low" then 0.25
    else 0.5
  }

  predicate Stale(env: Env, now: int, r: Row<Task>) {
    (now - r.updatedAt) / HOUR >= env.staleTaskHours
  }

  function DueBonus(now: int, t: Task): real {
    if t.dueAt.None? then 0.0
    else if t.dueAt.value <= now then 0.35
    else if t.dueAt.value <= now + 24 * HOUR then 0.2
    else 0.0
  }

  function BlockedBonus(t: Task): real { if t.status == "blocked" then 0.15 else 0.0 }

  function Score(env: Env, now: int, r: Row<Task>): real {
    r.body.salience * 0.4 + r.body.confidence * 0.2 + PriorityWeight(r.body.priority) * 0.25
    + DueBonus(now, r.body) + (if Stale(env, now, r) then 0.1 else 0.0) + BlockedBonus(r.body)
  }

  function Reason(env: Env, now: int, r: Row<Task>): string {
    if BlockedBonus(r.body) > 0.0 then "task is blocked and needs attention"
    else if DueBonus(now, r.body) >= 0.35 then "task is overdue"
    else if DueBonus(now, r.body) > 0.0 then "task is due soon"
    else if Stale(env, now, r) then "task has gone stale"
    else r.body.priority + " priority task"
  }

  function Suggestible(env: Env, scope: string): Row<Task> -> bool {
    (r: Row<Task>) => Actionable(r.body.status) && ScopeMatches(env, r.body.scope, scope)
  }

  function Eligible(env: Env, s: Store, scope: string): seq<Row<Task>> {
    Keep(Suggestible(env, scope), Listed(s.tasks, false))
  }

  function Scores(env: Env, now: int, rows: seq<Row<Task>>): (r: seq<real>)
    ensures |r| == |rows| && forall i :: 0 <= i < |rows| ==> r[i] == Score(env, now, rows[i])
  {
    seq(|rows|, i requires 0 <= i < |rows| => Score(env, now, rows[i]))
  }

  datatype Suggestion = Suggestion(
    id: string, taskId: string, summary: string, reason: string, score: real, context: string)

  function LinkedTitles(rows: seq<Row<Entity>>, links: seq<string>): seq<string> {
    if links == [] then []
    else
      var found := Find(rows, links[0]);
      (if found.Some? then [found.value.body.title] else []) + LinkedTitles(rows, links[1..])
  }

  function MakeSuggestion(env: Env, s: Store, r: Row<Task>): Suggestion {
    Suggestion("suggestion:" + r.id, r.id, r.body.summary, Reason(env, s.now, r), Score(env, s.now, r),
      env.contextOf(r.body, LinkedTitles(Listed(s.entities, false), env.parseLinks(r.body.links))))
  }

  /** The tasks suggested, best first: a stable top `limit` of the eligible ones. */
  function Suggested(env: Env, s: Store, scope: string, limit: nat): (r: seq<Row<Task>>) {
    var rows := Eligible(env, s, scope);
    var order := TopK(Scores(env, s.now, rows), AtLeastOne(limit));
    seq(|order|, i requires 0 <= i < |order| => rows[order[i]])
  }

  function IndexSuggestions(env: Env, index: seq<Entry>, suggestions: seq<Suggestion>): seq<Entry> {
    if suggestions == [] then index
    else
      var g := suggestions[|suggestions| - 1];
      PutEntry(IndexSuggestions(env, index, suggestions[..|suggestions| - 1]),
               Entry("brain-suggestions", g.id, g.summary + " " + g.reason + " " + g.context))
  }

  function Suggestions(env: Env, s: Store, scope: string, limit: nat): (r: seq<Suggestion>) {
    var rows := Suggested(env, s, scope, limit);
    seq(|rows|, i requires 0 <= i < |rows| => MakeSuggestion(env, s, rows[i]))
  }

  /** `suggest`: retention, then the ranked list, then its projections. */
  function Suggest(env: Env, s: Store, scope: string, limit: nat): Store {
    var s1 := Retain(env, s);
    s1.(index := IndexSuggestions(env, s1.index, Suggestions(env, s1, scope, limit)), now := s1.now + 1)
  }

  function Strong(): Suggestion -> bool {
    (g: Suggestion) => g.score >= 0.55
  }

  function Inline(env: Env, s: Store, scope: string, limit: nat): seq<Suggestion> {
    Take(Keep(Strong(), Suggestions(env, s, scope, limit)), limit)
  }

  // ----- runs -----

  datatype Action =
    | DoRemember(request: RememberRequest)
    | DoIngest(message: Message)
    | DoReply(message: Message, reply: string)
    | DoTool(target: string, priority: string, success: bool, summary: string, data: string)
    | DoUpdate(update: UpdateRequest)
    | DoForget(kind: string, id: string, mode: string)
    | DoRead
    | DoSuggest(scope: string, limit: nat)
    | DoMemory(namespace: string, key: string, text: string)
    | DoWait(time: nat)

  /** What the configuration lets through: a brain switched off refuses or ignores every call of its
      own, each kind of ingestion has its switch, and failed tool results are ignored. */
  predicate Permitted(env: Env, a: Action) {
    match a
    case DoIngest(_) => env.enabled && env.autoMessages
    case DoReply(_, _) => env.enabled && env.autoCommitments
    case DoTool(_, _, success, _, _) => env.enabled && env.autoTools && success
    case DoMemory(_, _, _) => true
    case DoWait(_) => true
    case _ => env.enabled
  }

  /** `DoRead` is any operation that only applies retention, `DoMemory` the public memory upsert. */
  function Perform(env: Env, s: Store, a: Action): Store {
    match a
    case DoRemember(q) => Remember(env, s, q)
    case DoIngest(m) => IngestMessage(env, s, m)
    case DoReply(m, reply) => IngestReply(env, s, m, reply)
    case DoTool(target, priority, _, summary, data) => IngestTool(env, s, target, priority, summary, data)
    case DoUpdate(q) => UpdateTask(env, s, q)
    case DoForget(kind, id, mode) => Forget(s, kind, id, mode)
    case DoRead => Retain(env, s)
    case DoSuggest(scope, limit) => Suggest(env, s, scope, limit)
    case DoMemory(namespace, key, text) => s.(index := PutEntry(s.index, Entry(namespace, key, text)), now := s.now + 1)
    case DoWait(time) => s.(now := s.now + time)
  }

  function Step(env: Env, s: Store, a: Action): Store {
    if Permitted(env, a) then Perform(env, s, a) else s
  }

  const EMPTY: Store := Store([], [], [], [], [], map[], 0)

  function Init(env: Env): Store {
    Baseline(env, EMPTY)
  }

  ghost predicate IsRun(env: Env, states: seq<Store>, acts: seq<Action>) {
    && |states| == |acts| + 1
    && states[0] == Init(env)
    && forall k :: 0 <= k < |acts| ==> states[k + 1] == Step(env, states[k], acts[k])
  }
}

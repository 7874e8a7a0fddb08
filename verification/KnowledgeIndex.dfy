/**
 The knowledge index of backend/app/ai/knowledge.py: the relational documents are the
 truth, the Redis chunk store is an index derived from them, and any number of rebuild
 workers interleave with edits. The only coordination is one state word, a fingerprint
 and the manifest of (version, hash) pairs a worker compares before it publishes.

 Every database transaction and every Redis command group is one atomic `Step`.
 */
module KnowledgeIndex {
  import opened Wrappers

  // A document id is the 32-digit hexadecimal text of a random UUID. Such texts have
  // one length, so their order is the order of the numbers they spell.
  type DocId = nat
  type WorkerId = nat
  type Fingerprint = string

  const MAX_INDEX_CHUNKS := 20_000
  const LOAD_BATCH := 64

  datatype Chunk = Chunk(text: string, heading: string)

  /** The two library calls the protocol depends on: the text splitter and SHA-256. */
  datatype Env = Env(split: (string, string) -> seq<Chunk>, sha256: string -> string)

  /** What a version of a document says. A changed body always gets a new version. */
  datatype Body = Body(title: string, sourceType: string, sourceRef: string,
                       scope: string, content: string)

  datatype Document = Document(body: Body, sha: string, version: nat, approved: bool,
                               indexedFp: Option<Fingerprint>, chunkCount: nat)

  datatype IndexState = Empty | Stale | Rebuilding | Ready | Error

  /** The single configuration row. `settingsFp` is what the running code computes from
      the row's provider, model and dimension; `modelFp` is the stored column. */
  datatype Config = Config(settingsFp: Fingerprint, modelFp: Fingerprint,
                           indexState: IndexState, indexedFp: Option<Fingerprint>,
                           indexedChunks: nat)

  datatype Key = Key(doc: DocId, version: nat, position: nat)

  datatype Record = Record(document: DocId, version: nat, title: string,
                           sourceType: string, sourceRef: string, heading: string,
                           scope: string, text: string)

  datatype Entry = Entry(key: Key, record: Record)

  type Docs = map<DocId, Document>
  type Store = map<Key, Record>

  // ---------------------------------------------------------------- chunk records

  function ChunksOf(e: Env, b: Body): seq<Chunk> {
    e.split(b.content, b.title)
  }

  function RecordOf(id: DocId, version: nat, b: Body, c: Chunk): Record {
    Record(id, version, b.title, b.sourceType, b.sourceRef, c.heading, b.scope, c.text)
  }

  function DocEntries(e: Env, id: DocId, d: Document): seq<Entry> {
    var cs := ChunksOf(e, d.body);
    seq(|cs|, i requires 0 <= i < |cs| =>
      Entry(Key(id, d.version, i), RecordOf(id, d.version, d.body, cs[i])))
  }

  /** The chunk list of a whole snapshot, document by document in id order. */
  function Prepared(e: Env, docs: Docs, order: seq<DocId>): seq<Entry>
    requires forall id :: id in order ==> id in docs
  {
    if order == [] then []
    else
      var last := order[|order| - 1];
      Prepared(e, docs, order[..|order| - 1]) + DocEntries(e, last, docs[last])
  }

  /** Loading a list of records into the hash store: a later write wins. */
  function Load(store: Store, entries: seq<Entry>): Store {
    if entries == [] then store
    else
      var last := entries[|entries| - 1];
      Load(store, entries[..|entries| - 1])[last.key := last.record]
  }

  function Approved(docs: Docs): Docs {
    map id | id in docs && docs[id].approved :: docs[id]
  }

  function Manifest(docs: Docs): map<DocId, (nat, string)> {
    map id | id in docs && docs[id].approved :: (docs[id].version, docs[id].sha)
  }

  ghost predicate Ascending(order: seq<DocId>) {
    forall i, j :: 0 <= i < j < |order| ==> order[i] < order[j]
  }

  /** `order` is what "select the approved documents, ordered by id" returns. */
  ghost predicate IsListing(order: seq<DocId>, docs: Docs) {
    && Ascending(order)
    && (forall id :: id in order <==> id in docs && docs[id].approved)
  }

  // ---------------------------------------------------------------- row updates

  function NewDocument(e: Env, b: Body): Document {
    Document(b, e.sha256(b.content), 1, true, None, 0)
  }

  function EditBody(b: Body, title: Option<string>, scope: Option<string>,
                    content: Option<string>): Body {
    b.(title := if title.Some? then title.value else b.title,
       scope := if scope.Some? then scope.value else b.scope,
       content := if content.Some? then content.value else b.content)
  }

  /** An edit that changes nothing keeps the version and the published state. */
  function EditDocument(e: Env, d: Document, b: Body): Document {
    if b == d.body then d
    else Document(b, e.sha256(b.content), d.version + 1, d.approved, None, 0)
  }

  function MarkStale(c: Config): Config {
    c.(indexState := Stale, indexedFp := None, indexedChunks := 0)
  }

  function MarkError(c: Config): Config {
    c.(indexState := Error, indexedFp := None, indexedChunks := 0)
  }

  function SaveConfig(c: Config, fp: Fingerprint): Config {
    var saved := c.(settingsFp := fp, modelFp := fp);
    if fp != c.modelFp then MarkStale(saved) else saved
  }

  /** The first transaction of a rebuild. */
  function StartConfig(c: Config): Config {
    var current :=
      if c.modelFp != c.settingsFp
      then c.(modelFp := c.settingsFp, indexedFp := None, indexedChunks := 0)
      else c;
    current.(indexState := Rebuilding)
  }

  /** The comparison a worker makes, under the row lock, before it publishes. */
  predicate MayPublish(c: Config, docs: Docs, snapshotFp: Fingerprint, snap: Docs) {
    && c.indexState == Rebuilding
    && c.modelFp == snapshotFp
    && Manifest(docs) == Manifest(snap)
  }

  function PublishConfig(c: Config, total: nat): Config {
    c.(indexedFp := Some(c.modelFp), indexedChunks := total,
       indexState := if total > 0 then Ready else Empty)
  }

  function PublishDocs(e: Env, docs: Docs, snap: Docs, fp: Fingerprint): Docs {
    map id | id in docs ::
      if !docs[id].approved then docs[id]
      else docs[id].(
        chunkCount := if id in snap then |ChunksOf(e, snap[id].body)| else 0,
        indexedFp := Some(fp))
  }

  /** The state word the API reports: a published index of another layout is stale. */
  function ReportedState(c: Config): IndexState {
    if c.indexState == Ready && c.modelFp != c.settingsFp then Stale else c.indexState
  }

  // ---------------------------------------------------------------- the step system

  datatype Phase =
    | Started
    | Snapped(snap: Docs, order: seq<DocId>)
    | Loading(snap: Docs, order: seq<DocId>, loaded: nat)

  /** One running rebuild. `overlapped` is bookkeeping of the proof: some other rebuild
      was in flight at some moment since this one started. */
  datatype Worker = Worker(snapshotFp: Fingerprint, phase: Phase, overlapped: bool)

  datatype Ver = Ver(id: DocId, version: nat)

  /** `history` is bookkeeping of the proof: every body ever committed. */
  datatype World = World(docs: Docs, config: Config, store: Store, pending: nat,
                         workers: map<WorkerId, Worker>, history: map<Ver, Body>)

  datatype Step =
    | Create(id: DocId, body: Body)
    | Update(id: DocId, title: Option<string>, scope: Option<string>, content: Option<string>)
    | Delete(id: DocId)
    | Save(fp: Fingerprint)
    | Redeploy(fp: Fingerprint)
    | Request
    | IndexError(dropped: bool)
    | Start(w: WorkerId, fromQueue: bool)
    | Snapshot(w: WorkerId, order: seq<DocId>)
    | Reset(w: WorkerId)
    | LoadSome(w: WorkerId, count: nat)
    | Finish(w: WorkerId)
    | Fail(w: WorkerId)

  ghost predicate Ordered(docs: Docs, order: seq<DocId>) {
    forall id :: id in order ==> id in docs
  }

  function Commit(s: World, docs: Docs, id: DocId): World
    requires id in docs
  {
    s.(docs := docs, config := MarkStale(s.config),
       history := s.history[Ver(id, docs[id].version) := docs[id].body])
  }

  function DoUpdate(e: Env, s: World, id: DocId, title: Option<string>, scope: Option<string>,
                    content: Option<string>): World
    requires id in s.docs
  {
    var d := EditDocument(e, s.docs[id], EditBody(s.docs[id].body, title, scope, content));
    if d == s.docs[id] then s else Commit(s, s.docs[id := d], id)
  }

  function Overlapped(workers: map<WorkerId, Worker>): map<WorkerId, Worker> {
    map w | w in workers :: workers[w].(overlapped := true)
  }

  function DoStart(s: World, w: WorkerId, fromQueue: bool): World
    requires fromQueue ==> s.pending > 0
  {
    var c := StartConfig(s.config);
    s.(config := c,
       pending := if fromQueue then s.pending - 1 else s.pending,
       workers := Overlapped(s.workers)[w := Worker(c.modelFp, Started, s.workers != map[])])
  }

  ghost predicate CanSnapshot(e: Env, s: World, w: WorkerId, order: seq<DocId>) {
    && w in s.workers && s.workers[w].phase.Started?
    && IsListing(order, s.docs)
    && |Prepared(e, s.docs, order)| <= MAX_INDEX_CHUNKS
  }

  function MoveWorker(s: World, w: WorkerId, phase: Phase): World
    requires w in s.workers
  {
    s.(workers := s.workers[w := s.workers[w].(phase := phase)])
  }

  ghost predicate IsLoading(s: World, w: WorkerId) {
    && w in s.workers && s.workers[w].phase.Loading?
    && Ordered(s.workers[w].phase.snap, s.workers[w].phase.order)
  }

  ghost function PreparedBy(e: Env, s: World, w: WorkerId): seq<Entry>
    requires IsLoading(s, w)
  {
    Prepared(e, s.workers[w].phase.snap, s.workers[w].phase.order)
  }

  ghost predicate CanLoad(e: Env, s: World, w: WorkerId, count: nat) {
    && IsLoading(s, w)
    && 1 <= count <= LOAD_BATCH
    && s.workers[w].phase.loaded + count <= |PreparedBy(e, s, w)|
  }

  ghost function DoLoad(e: Env, s: World, w: WorkerId, count: nat): World
    requires CanLoad(e, s, w, count)
  {
    var p := s.workers[w].phase;
    MoveWorker(s, w, p.(loaded := p.loaded + count)).(
      store := Load(s.store, PreparedBy(e, s, w)[p.loaded..p.loaded + count]))
  }

  ghost predicate CanFinish(e: Env, s: World, w: WorkerId) {
    IsLoading(s, w) && s.workers[w].phase.loaded == |PreparedBy(e, s, w)|
  }

  ghost function DoFinish(e: Env, s: World, w: WorkerId): World
    requires CanFinish(e, s, w)
  {
    var k := s.workers[w];
    if MayPublish(s.config, s.docs, k.snapshotFp, k.phase.snap) then
      s.(docs := PublishDocs(e, s.docs, k.phase.snap, k.snapshotFp),
         config := PublishConfig(s.config, |PreparedBy(e, s, w)|),
         workers := s.workers - {w})
    else
      s.(config := MarkStale(s.config), workers := s.workers - {w})
  }

  ghost predicate Enabled(e: Env, s: World, step: Step) {
    match step
    case Create(id, _) =>
      // A UUID is never drawn twice.
      id !in s.docs && forall v :: v in s.history ==> v.id != id
    case Update(id, _, _, _) => id in s.docs
    case Delete(id) => id in s.docs
    case Save(_) => true
    case Redeploy(_) => true
    case Request => s.config.indexState != Rebuilding
    case IndexError(dropped) => dropped ==> s.pending > 0
    case Start(w, fromQueue) => w !in s.workers && (fromQueue ==> s.pending > 0)
    case Snapshot(w, order) => CanSnapshot(e, s, w, order)
    case Reset(w) => w in s.workers && s.workers[w].phase.Snapped?
    case LoadSome(w, count) => CanLoad(e, s, w, count)
    case Finish(w) => CanFinish(e, s, w)
    case Fail(w) => w in s.workers
  }

  ghost function Apply(e: Env, s: World, step: Step): World
    requires Enabled(e, s, step)
  {
    match step
    case Create(id, body) => Commit(s, s.docs[id := NewDocument(e, body)], id)
    case Update(id, title, scope, content) => DoUpdate(e, s, id, title, scope, content)
    case Delete(id) => s.(docs := s.docs - {id}, config := MarkStale(s.config))
    case Save(fp) => s.(config := SaveConfig(s.config, fp))
    case Redeploy(fp) => s.(config := s.config.(settingsFp := fp))
    case Request =>
      s.(config := s.config.(indexState := Rebuilding), pending := s.pending + 1)
    case IndexError(dropped) =>
      s.(config := MarkError(s.config), pending := if dropped then s.pending - 1 else s.pending)
    case Start(w, fromQueue) => DoStart(s, w, fromQueue)
    case Snapshot(w, order) => MoveWorker(s, w, Snapped(Approved(s.docs), order))
    case Reset(w) =>
      MoveWorker(s, w, Loading(s.workers[w].phase.snap, s.workers[w].phase.order, 0)).(store := map[])
    case LoadSome(w, count) => DoLoad(e, s, w, count)
    case Finish(w) => DoFinish(e, s, w)
    case Fail(w) => s.(config := MarkError(s.config), workers := s.workers - {w})
  }

  /** A fresh installation: no document, the default row, an empty index. */
  ghost predicate Initial(s: World) {
    && s.docs == map[] && s.history == map[] && s.store == map[]
    && s.pending == 0 && s.workers == map[]
    && s.config.indexState == Empty && s.config.indexedChunks == 0
    && s.config.indexedFp == None
  }

  /** `states` is the sequence of worlds a run passes through. */
  ghost predicate IsRun(e: Env, states: seq<World>, steps: seq<Step>) {
    && |states| == |steps| + 1
    && Initial(states[0])
    && (forall i {:trigger steps[i]} :: 0 <= i < |steps| ==>
          Enabled(e, states[i], steps[i]) && states[i + 1] == Apply(e, states[i], steps[i]))
  }
}

/**
 What every run of the index protocol keeps, whatever edits, requests, errors and
 overlapping rebuilds it interleaves, and what a published index means.
 */
module KnowledgeSafety {
  import opened Wrappers
  import opened KnowledgeIndex
  import opened KnowledgeChunks

  // ---------------------------------------------------------------- the invariant

  /** Each document row is the latest version of its id, and its hash fits. */
  ghost predicate HistoryInv(e: Env, s: World) {
    && (forall id :: id in s.docs ==>
          && Ver(id, s.docs[id].version) in s.history
          && s.history[Ver(id, s.docs[id].version)] == s.docs[id].body
          && s.docs[id].sha == e.sha256(s.docs[id].body.content)
          && s.docs[id].approved)
    && (forall v :: v in s.history && v.id in s.docs ==> v.version <= s.docs[v.id].version)
  }

  /** A stored record is the chunk, at its position, of a body that was committed under
      its document id and version. */
  ghost predicate StoreInv(e: Env, s: World) {
    forall k :: k in s.store ==> FromHistory(e, s.history, k, s.store[k])
  }

  ghost predicate FromHistory(e: Env, history: map<Ver, Body>, k: Key, r: Record) {
    && Ver(k.doc, k.version) in history
    && var b := history[Ver(k.doc, k.version)];
       && k.position < |ChunksOf(e, b)|
       && r == RecordOf(k.doc, k.version, b, ChunksOf(e, b)[k.position])
  }

  ghost predicate SnapInv(e: Env, history: map<Ver, Body>, snap: Docs, order: seq<DocId>) {
    && IsListing(order, snap)
    && |Prepared(e, snap, order)| <= MAX_INDEX_CHUNKS
    && (forall id :: id in snap ==>
          && snap[id].approved
          && Ver(id, snap[id].version) in history
          && history[Ver(id, snap[id].version)] == snap[id].body)
  }

  /** Each worker carries a snapshot of committed rows. A worker that no other one
      overlapped is alone, and the store holds exactly what it loaded so far. */
  ghost predicate WorkerInv(e: Env, s: World, w: WorkerId)
    requires w in s.workers
  {
    var p := s.workers[w].phase;
    && (!p.Started? ==> SnapInv(e, s.history, p.snap, p.order))
    && (p.Loading? ==> p.loaded <= |Prepared(e, p.snap, p.order)|)
    && (!s.workers[w].overlapped ==>
          && s.workers.Keys == {w}
          && (p.Loading? ==> s.store == Load(map[], Prepared(e, p.snap, p.order)[..p.loaded])))
  }

  ghost predicate WorkersInv(e: Env, s: World) {
    forall w :: w in s.workers ==> WorkerInv(e, s, w)
  }

  /** While the word is `rebuilding`, somebody is going to change it. If that is one
      worker and no request is queued, then it overlapped no other worker, and neither
      the documents nor the fingerprint moved since it looked at them. */
  ghost predicate LoneInv(s: World) {
    s.config.indexState == Rebuilding ==>
      && (s.pending > 0 || s.workers != map[])
      && (s.pending == 0 ==>
            forall w :: w in s.workers && s.workers.Keys == {w} ==>
              && !s.workers[w].overlapped
              && s.workers[w].snapshotFp == s.config.modelFp
              && (!s.workers[w].phase.Started? ==> s.workers[w].phase.snap == s.docs))
  }

  /** The counters of a published index. */
  ghost predicate AccountInv(e: Env, s: World) {
    && (s.config.indexState == Ready ==>
          && s.config.indexedFp == Some(s.config.modelFp)
          && 0 < s.config.indexedChunks <= MAX_INDEX_CHUNKS
          && (forall id :: id in s.docs ==>
                && s.docs[id].indexedFp == Some(s.config.modelFp)
                && s.docs[id].chunkCount == |ChunksOf(e, s.docs[id].body)|))
    && (s.config.indexState in {Ready, Empty} ==>
          forall order :: IsListing(order, s.docs) ==>
            Ordered(s.docs, order) && ChunkTotal(s.docs, order) == s.config.indexedChunks)
    && (s.config.indexState == Empty ==> s.config.indexedChunks == 0)
  }

  ghost predicate Exact(e: Env, docs: Docs, store: Store) {
    && (forall k :: k in store <==> IsCurrentKey(e, docs, k))
    && (forall k :: k in store ==> store[k] == CurrentRecord(e, docs, k))
  }

  /** What a record says, written out: its key's document at its current version, with that
      document's columns and the text of the chunk at its place. */
  ghost predicate Says(e: Env, d: Document, k: Key, r: Record) {
    var chunks := e.split(d.body.content, d.body.title);
    && r.document == k.doc && r.version == k.version && k.version == d.version
    && r.title == d.body.title && r.sourceType == d.body.sourceType && r.sourceRef == d.body.sourceRef
    && r.scope == d.body.scope
    && k.position < |chunks| && r.heading == chunks[k.position].heading && r.text == chunks[k.position].text
  }

  /** The store says of each approved document all its chunks, and nothing else. */
  ghost predicate SaysAll(e: Env, docs: Docs, store: Store) {
    && (forall k :: k in store ==> k.doc in docs && docs[k.doc].approved && Says(e, docs[k.doc], k, store[k]))
    && (forall id, i :: id in docs && docs[id].approved && 0 <= i < |e.split(docs[id].body.content, docs[id].body.title)|
                        ==> Key(id, docs[id].version, i) in store)
  }

  lemma ExactSaysAll(e: Env, docs: Docs, store: Store)
    requires Exact(e, docs, store)
    ensures SaysAll(e, docs, store)
  {
    forall id, i: nat | id in docs && docs[id].approved && i < |e.split(docs[id].body.content, docs[id].body.title)|
      ensures Key(id, docs[id].version, i) in store
    {
      assert IsCurrentKey(e, docs, Key(id, docs[id].version, i));
    }
  }

  ghost predicate Quiet(s: World) {
    s.pending == 0 && s.workers == map[]
  }

  ghost predicate CompleteInv(e: Env, s: World) {
    s.config.indexState == Ready && Quiet(s) ==> Exact(e, s.docs, s.store)
  }

  ghost predicate Inv(e: Env, s: World) {
    && HistoryInv(e, s) && StoreInv(e, s) && WorkersInv(e, s)
    && LoneInv(s) && AccountInv(e, s) && CompleteInv(e, s)
  }

  // ---------------------------------------------------------------- preservation

  lemma CommitHistory(e: Env, s: World, id: DocId, d: Document)
    requires HistoryInv(e, s)
    requires d.approved && d.sha == e.sha256(d.body.content)
    requires forall v :: v in s.history && v.id == id ==> v.version < d.version
    ensures HistoryInv(e, Commit(s, s.docs[id := d], id))
    ensures Grows(s.history, Commit(s, s.docs[id := d], id).history)
  {
  }

  ghost predicate Grows(a: map<Ver, Body>, b: map<Ver, Body>) {
    forall v :: v in a ==> v in b && b[v] == a[v]
  }

  lemma HistoryStep(e: Env, s: World, step: Step)
    requires HistoryInv(e, s) && Enabled(e, s, step)
    ensures HistoryInv(e, Apply(e, s, step))
    ensures Grows(s.history, Apply(e, s, step).history)
  {
    match step
    case Create(id, body) =>
      CommitHistory(e, s, id, NewDocument(e, body));
    case Update(id, title, scope, content) =>
      var d := EditDocument(e, s.docs[id], EditBody(s.docs[id].body, title, scope, content));
      if d != s.docs[id] { CommitHistory(e, s, id, d); }
    case _ =>
  }

  lemma SliceFromHistory(e: Env, history: map<Ver, Body>, snap: Docs, order: seq<DocId>, i: nat)
    requires SnapInv(e, history, snap, order) && i < |Prepared(e, snap, order)|
    ensures var en := Prepared(e, snap, order)[i]; FromHistory(e, history, en.key, en.record)
  {
    PreparedAt(e, snap, order, i);
  }

  lemma LoadFromHistory(e: Env, history: map<Ver, Body>, store: Store, snap: Docs,
                        order: seq<DocId>, lo: nat, hi: nat)
    requires SnapInv(e, history, snap, order) && lo <= hi <= |Prepared(e, snap, order)|
    requires forall k :: k in store ==> FromHistory(e, history, k, store[k])
    ensures var t := Load(store, Prepared(e, snap, order)[lo..hi]);
            forall k :: k in t ==> FromHistory(e, history, k, t[k])
  {
    var es := Prepared(e, snap, order)[lo..hi];
    forall k | k in Load(store, es)
      ensures FromHistory(e, history, k, Load(store, es)[k])
    {
      LoadKeys(store, es, k);
      if exists i :: 0 <= i < |es| && es[i].key == k {
        var i :| 0 <= i < |es| && es[i] == Entry(k, Load(store, es)[k]);
        SliceFromHistory(e, history, snap, order, lo + i);
      }
    }
  }

  lemma StoreGrows(e: Env, s: World, history: map<Ver, Body>)
    requires StoreInv(e, s) && Grows(s.history, history)
    ensures forall k :: k in s.store ==> FromHistory(e, history, k, s.store[k])
  {
  }

  lemma StoreLoads(e: Env, s: World, w: WorkerId, count: nat)
    requires StoreInv(e, s) && CanLoad(e, s, w, count) && WorkerInv(e, s, w)
    ensures StoreInv(e, DoLoad(e, s, w, count))
  {
    hide Load, Prepared;
    var p := s.workers[w].phase;
    LoadFromHistory(e, s.history, s.store, p.snap, p.order, p.loaded, p.loaded + count);
    assert DoLoad(e, s, w, count).store
        == Load(s.store, Prepared(e, p.snap, p.order)[p.loaded..p.loaded + count]);
  }

  lemma StoreStep(e: Env, s: World, step: Step)
    requires StoreInv(e, s) && Enabled(e, s, step)
    requires Grows(s.history, Apply(e, s, step).history)
    requires step.LoadSome? ==> WorkerInv(e, s, step.w)
    ensures StoreInv(e, Apply(e, s, step))
  {
    match step
    case LoadSome(w, count) => StoreLoads(e, s, w, count);
    case Reset(_) =>
    case _ =>
      StoreGrows(e, s, Apply(e, s, step).history);
  }

  lemma ListingOfApproved(e: Env, s: World, order: seq<DocId>)
    requires HistoryInv(e, s) && IsListing(order, s.docs)
    ensures Approved(s.docs) == s.docs
  {
  }

  /** A step of others: the worker keeps its record, except that it may be marked. */
  lemma WorkerKept(e: Env, s: World, t: World, w: WorkerId)
    requires w in s.workers && w in t.workers && WorkerInv(e, s, w) && Grows(s.history, t.history)
    requires
      || t.workers[w] == s.workers[w].(overlapped := true)
      || (&& t.workers[w] == s.workers[w] && t.workers.Keys <= s.workers.Keys
          && (t.store == s.store || s.workers.Keys != {w}))
    ensures WorkerInv(e, t, w)
  {
    if !t.workers[w].overlapped {
      assert t.workers.Keys == {w};
    }
  }

  /** The worker's own load: what was loaded before, and the next slice. */
  lemma WorkerLoads(e: Env, s: World, w: WorkerId, count: nat)
    requires CanLoad(e, s, w, count) && WorkerInv(e, s, w)
    ensures WorkerInv(e, DoLoad(e, s, w, count), w)
  {
    hide Load, Prepared;
    var p := s.workers[w].phase;
    var all := PreparedBy(e, s, w);
    assert all[..p.loaded + count] == all[..p.loaded] + all[p.loaded..p.loaded + count];
    LoadSplit(map[], all[..p.loaded], all[p.loaded..p.loaded + count]);
    assert DoLoad(e, s, w, count).workers.Keys == s.workers.Keys;
  }

  lemma WorkerSnaps(e: Env, s: World, w: WorkerId, order: seq<DocId>)
    requires HistoryInv(e, s) && CanSnapshot(e, s, w, order) && WorkerInv(e, s, w)
    ensures WorkerInv(e, MoveWorker(s, w, Snapped(Approved(s.docs), order)), w)
  {
    ListingOfApproved(e, s, order);
    assert MoveWorker(s, w, Snapped(Approved(s.docs), order)).workers.Keys == s.workers.Keys;
  }

  lemma WorkerStarts(e: Env, s: World, w: WorkerId, fromQueue: bool)
    requires w !in s.workers && (fromQueue ==> s.pending > 0)
    ensures WorkerInv(e, DoStart(s, w, fromQueue), w)
  {
    assert s.workers == map[] ==> DoStart(s, w, fromQueue).workers.Keys == {w};
  }

  lemma WorkerResets(e: Env, s: World, w: WorkerId)
    requires Enabled(e, s, Reset(w)) && WorkerInv(e, s, w)
    ensures WorkerInv(e, Apply(e, s, Reset(w)), w)
  {
    assert Apply(e, s, Reset(w)).workers.Keys == s.workers.Keys;
  }

  lemma WorkerStep(e: Env, s: World, step: Step, w: WorkerId)
    requires HistoryInv(e, s) && Enabled(e, s, step)
    requires Grows(s.history, Apply(e, s, step).history)
    requires w in Apply(e, s, step).workers
    requires w in s.workers ==> WorkerInv(e, s, w)
    ensures WorkerInv(e, Apply(e, s, step), w)
  {
    hide WorkerInv, HistoryInv, Prepared, IsListing;
    match step
    case Snapshot(v, _) =>
      if v == w { WorkerSnaps(e, s, w, step.order); } else { WorkerKept(e, s, Apply(e, s, step), w); }
    case Reset(v) =>
      if v == w {
        WorkerResets(e, s, w);
      } else {
        assert Apply(e, s, step).workers.Keys == s.workers.Keys;
        assert v in s.workers.Keys;
        WorkerKept(e, s, Apply(e, s, step), w);
      }
    case LoadSome(v, _) =>
      if v == w {
        WorkerLoads(e, s, w, step.count);
      } else {
        assert v in s.workers.Keys;
        WorkerKept(e, s, Apply(e, s, step), w);
      }
    case Start(v, _) =>
      if v == w {
        WorkerStarts(e, s, w, step.fromQueue);
      } else {
        WorkerKept(e, s, Apply(e, s, step), w);
      }
    case _ => WorkerKept(e, s, Apply(e, s, step), w);
  }

  lemma WorkersStep(e: Env, s: World, step: Step)
    requires HistoryInv(e, s) && WorkersInv(e, s) && Enabled(e, s, step)
    ensures WorkersInv(e, Apply(e, s, step))
  {
    HistoryStep(e, s, step);
    forall w | w in Apply(e, s, step).workers ensures WorkerInv(e, Apply(e, s, step), w) {
      WorkerStep(e, s, step, w);
    }
  }

  lemma LoneStep(e: Env, s: World, step: Step)
    requires HistoryInv(e, s) && LoneInv(s) && Enabled(e, s, step)
    ensures LoneInv(Apply(e, s, step))
  {
    var t := Apply(e, s, step);
    match step
    case Start(v, _) =>
      assert v in t.workers;
      forall w | w in t.workers && t.workers.Keys == {w} ensures !t.workers[w].overlapped {
        assert w == v;
        assert forall u :: u in s.workers ==> u in t.workers.Keys;
      }
    case Snapshot(v, order) =>
      ListingOfApproved(e, s, order);
      assert t.workers.Keys == s.workers.Keys;
    case Reset(v) => assert t.workers.Keys == s.workers.Keys;
    case LoadSome(v, _) => assert t.workers.Keys == s.workers.Keys;
    case _ =>
  }

  lemma PublishedAccount(e: Env, s: World, w: WorkerId)
    requires HistoryInv(e, s) && CanFinish(e, s, w) && WorkerInv(e, s, w)
    requires MayPublish(s.config, s.docs, s.workers[w].snapshotFp, s.workers[w].phase.snap)
    ensures AccountInv(e, DoFinish(e, s, w))
    ensures forall id :: id in s.docs ==>
              && id in s.workers[w].phase.snap
              && s.docs[id].version == s.workers[w].phase.snap[id].version
              && s.docs[id].body == s.workers[w].phase.snap[id].body
  {
    var k, t := s.workers[w], DoFinish(e, s, w);
    var snap := k.phase.snap;
    SameManifest(e, s, snap, k.phase.order);
    forall order | IsListing(order, t.docs)
      ensures Ordered(t.docs, order) && ChunkTotal(t.docs, order) == t.config.indexedChunks
    {
      assert forall id :: id in order <==> id in snap;
      ListingUnique(order, k.phase.order);
      PublishedTotal(e, s.docs, snap, k.snapshotFp, order);
    }
  }

  /** Equal manifests mean equal rows: a version is never written twice. */
  lemma SameManifest(e: Env, s: World, snap: Docs, order: seq<DocId>)
    requires HistoryInv(e, s) && SnapInv(e, s.history, snap, order)
    requires Manifest(s.docs) == Manifest(snap)
    ensures s.docs.Keys == snap.Keys
    ensures forall id :: id in s.docs ==>
              s.docs[id].version == snap[id].version && s.docs[id].body == snap[id].body
  {
    forall id
      ensures id in s.docs <==> id in snap
      ensures id in s.docs ==> s.docs[id].version == snap[id].version
    {
      assert id in Manifest(s.docs) <==> id in Manifest(snap);
      if id in s.docs {
        assert Manifest(s.docs)[id] == Manifest(snap)[id];
      }
    }
  }

  lemma AccountKept(e: Env, s: World, t: World)
    requires AccountInv(e, s) && t.docs == s.docs
    requires t.config == s.config || t.config == s.config.(settingsFp := t.config.settingsFp)
    ensures AccountInv(e, t)
  {
  }

  lemma AccountStep(e: Env, s: World, step: Step)
    requires HistoryInv(e, s) && AccountInv(e, s) && Enabled(e, s, step)
    requires step.Finish? ==> WorkerInv(e, s, step.w)
    ensures AccountInv(e, Apply(e, s, step))
  {
    match step
    case Finish(w) =>
      var k := s.workers[w];
      if MayPublish(s.config, s.docs, k.snapshotFp, k.phase.snap) {
        PublishedAccount(e, s, w);
      }
    case Update(_, _, _, _) =>
    case _ =>
      var t := Apply(e, s, step);
      if t.config.indexState in {Ready, Empty} {
        AccountKept(e, s, t);
      }
  }

  lemma LoadedExact(e: Env, s: World, w: WorkerId)
    requires CanFinish(e, s, w) && WorkerInv(e, s, w) && !s.workers[w].overlapped
    ensures Exact(e, s.workers[w].phase.snap, s.store)
  {
    var p := s.workers[w].phase;
    var all := Prepared(e, p.snap, p.order);
    assert all[..p.loaded] == all;
    LoadedIsComplete(e, p.snap, p.order);
  }

  lemma LoadedSize(e: Env, s: World, w: WorkerId)
    requires CanFinish(e, s, w) && WorkerInv(e, s, w) && !s.workers[w].overlapped
    ensures |s.store| == |PreparedBy(e, s, w)|
  {
    var p := s.workers[w].phase;
    var all := Prepared(e, p.snap, p.order);
    assert all[..p.loaded] == all;
    LoadedIsComplete(e, p.snap, p.order);
  }

  lemma ExactAfterPublish(e: Env, docs: Docs, snap: Docs, fp: Fingerprint, store: Store)
    requires Exact(e, docs, store)
    ensures Exact(e, PublishDocs(e, docs, snap, fp), store)
  {
    var after := PublishDocs(e, docs, snap, fp);
    assert forall k :: IsCurrentKey(e, docs, k) <==> IsCurrentKey(e, after, k);
  }

  lemma FinishedComplete(e: Env, s: World, w: WorkerId)
    requires LoneInv(s) && CanFinish(e, s, w) && WorkerInv(e, s, w)
    ensures CompleteInv(e, DoFinish(e, s, w))
  {
    var t := DoFinish(e, s, w);
    if t.config.indexState == Ready && Quiet(t) {
      assert s.workers.Keys == {w} by {
        assert forall v :: v in s.workers && v != w ==> v in t.workers;
      }
      LoadedExact(e, s, w);
      ExactAfterPublish(e, s.docs, s.workers[w].phase.snap, s.workers[w].snapshotFp, s.store);
    }
  }

  lemma CompleteStep(e: Env, s: World, step: Step)
    requires LoneInv(s) && CompleteInv(e, s) && Enabled(e, s, step)
    requires step.Finish? ==> WorkerInv(e, s, step.w)
    ensures CompleteInv(e, Apply(e, s, step))
  {
    match step
    case Finish(w) => FinishedComplete(e, s, w);
    case Snapshot(w, _) => assert w in Apply(e, s, step).workers;
    case Reset(w) => assert w in Apply(e, s, step).workers;
    case LoadSome(w, _) => assert w in Apply(e, s, step).workers;
    case Start(w, _) => assert w in Apply(e, s, step).workers;
    case _ =>
      var t := Apply(e, s, step);
      assert t.config.indexState == Ready ==> t.docs == s.docs && t.store == s.store;
  }

  lemma InvStep(e: Env, s: World, step: Step)
    requires Inv(e, s) && Enabled(e, s, step)
    ensures Inv(e, Apply(e, s, step))
  {
    HistoryStep(e, s, step);
    assert step.LoadSome? ==> WorkerInv(e, s, step.w);
    StoreStep(e, s, step);
    WorkersStep(e, s, step);
    LoneStep(e, s, step);
    assert step.Finish? ==> WorkerInv(e, s, step.w);
    AccountStep(e, s, step);
    CompleteStep(e, s, step);
  }

  lemma InvInitial(e: Env, s: World)
    requires Initial(s)
    ensures Inv(e, s)
  {
    forall order | IsListing(order, s.docs) ensures order == [] {
      ListingUnique(order, []);
    }
  }

  lemma {:induction false} InvRun(e: Env, states: seq<World>, steps: seq<Step>, i: nat)
    requires IsRun(e, states, steps) && i < |states|
    ensures Inv(e, states[i])
  {
    if i == 0 {
      InvInitial(e, states[0]);
    } else {
      InvRun(e, states, steps, i - 1);
      InvStep(e, states[i - 1], steps[i - 1]);
    }
  }
}

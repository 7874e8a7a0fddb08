/**
 The service object: its methods change the rows and the store in place, and each of them is
 one step, or a few, of the transition system. A rebuild is made of five methods; any other
 calls may come between them.
 */
module KnowledgeServices {
  import opened Wrappers
  import opened KnowledgeIndex
  import opened KnowledgeChunks
  import opened KnowledgeSafety
  import opened KnowledgeTheorems

  /** Where the outside world may break a rebuild: before or after the store is dropped, or in
      front of a batch. */
  datatype Fault = NoFault | ResetFails(dropped: bool) | LoadFails(batch: nat)

  datatype ReindexError = TooManyChunks | StoreUnavailable

  datatype ServiceError = NotFound | Conflict

  lemma {:induction false} PreparedPrefix(e: Env, docs: Docs, order: seq<DocId>, i: nat)
    requires Ordered(docs, order) && i <= |order|
    ensures Prepared(e, docs, order[..i]) <= Prepared(e, docs, order)
  {
    if i < |order| {
      var front := order[..|order| - 1];
      PreparedPrefix(e, docs, front, i);
      assert front[..i] == order[..i];
    } else {
      assert order[..i] == order;
    }
  }

  // What the loops below have built after the rows of a listing.

  ghost function ManifestOf(docs: Docs, order: seq<DocId>): map<DocId, (nat, string)>
    requires Ordered(docs, order)
  {
    if order == [] then map[]
    else
      var last := order[|order| - 1];
      ManifestOf(docs, order[..|order| - 1])[last := (docs[last].version, docs[last].sha)]
  }

  ghost function CountsOf(e: Env, docs: Docs, order: seq<DocId>): map<DocId, nat>
    requires Ordered(docs, order)
  {
    if order == [] then map[]
    else
      var last := order[|order| - 1];
      CountsOf(e, docs, order[..|order| - 1])[last := |ChunksOf(e, docs[last].body)|]
  }

  ghost function PublishedOf(docs: Docs, order: seq<DocId>, counts: map<DocId, nat>, fp: Fingerprint): Docs
    requires Ordered(docs, order)
  {
    if order == [] then docs
    else
      var last := order[|order| - 1];
      PublishedOf(docs, order[..|order| - 1], counts, fp)[last := docs[last].(
        chunkCount := if last in counts then counts[last] else 0, indexedFp := Some(fp))]
  }

  lemma {:induction false} RowAt(e: Env, docs: Docs, order: seq<DocId>, counts: map<DocId, nat>,
                                 fp: Fingerprint, id: DocId)
    requires Ordered(docs, order)
    ensures id in ManifestOf(docs, order) <==> id in order
    ensures id in CountsOf(e, docs, order) <==> id in order
    ensures id in order ==>
              && ManifestOf(docs, order)[id] == (docs[id].version, docs[id].sha)
              && CountsOf(e, docs, order)[id] == |ChunksOf(e, docs[id].body)|
    ensures id in PublishedOf(docs, order, counts, fp) <==> id in docs
    ensures id in docs ==>
              PublishedOf(docs, order, counts, fp)[id] ==
                if id in order
                then docs[id].(chunkCount := if id in counts then counts[id] else 0, indexedFp := Some(fp))
                else docs[id]
  {
    if order != [] {
      var front, last := order[..|order| - 1], order[|order| - 1];
      assert order == front + [last];
      RowAt(e, docs, front, counts, fp, id);
    }
  }

  lemma ListedManifest(e: Env, docs: Docs, order: seq<DocId>)
    requires IsListing(order, docs)
    ensures ManifestOf(docs, order) == Manifest(Approved(docs))
    ensures Manifest(docs) == Manifest(Approved(docs))
  {
    forall id
      ensures id in ManifestOf(docs, order) <==> id in Manifest(docs)
      ensures id in Manifest(docs) ==> ManifestOf(docs, order)[id] == Manifest(docs)[id]
    {
      RowAt(e, docs, order, map[], "", id);
    }
    assert Manifest(docs) == Manifest(Approved(docs));
  }

  lemma ListedPublished(e: Env, docs: Docs, order: seq<DocId>, later: Docs, laterOrder: seq<DocId>, fp: Fingerprint)
    requires IsListing(order, docs) && IsListing(laterOrder, later)
    ensures PublishedOf(later, laterOrder, CountsOf(e, docs, order), fp)
         == PublishDocs(e, later, Approved(docs), fp)
  {
    var counts := CountsOf(e, docs, order);
    forall id
      ensures id in PublishedOf(later, laterOrder, counts, fp) <==> id in later
      ensures id in later ==>
                PublishedOf(later, laterOrder, counts, fp)[id] == PublishDocs(e, later, Approved(docs), fp)[id]
    {
      RowAt(e, later, laterOrder, counts, fp, id);
      RowAt(e, docs, order, map[], "", id);
    }
  }

  // ---------------------------------------------------------------- a rebuild's local variables

  /** What a rebuild remembers of the rows it read. */
  datatype Job = Job(fp: Fingerprint, prepared: seq<Entry>, manifest: map<DocId, (nat, string)>,
                     counts: map<DocId, nat>)

  /** The local variables say what the worker's snapshot says. */
  ghost predicate Matches(e: Env, k: Worker, job: Job) {
    && k.snapshotFp == job.fp && !k.phase.Started?
    && IsListing(k.phase.order, k.phase.snap) && Approved(k.phase.snap) == k.phase.snap
    && job.prepared == Prepared(e, k.phase.snap, k.phase.order)
    && job.manifest == Manifest(k.phase.snap)
    && job.counts == CountsOf(e, k.phase.snap, k.phase.order)
  }

  lemma SnapshotMatches(e: Env, docs: Docs, order: seq<DocId>, fp: Fingerprint, overlapped: bool)
    requires IsListing(order, docs)
    ensures Matches(e, Worker(fp, Snapped(Approved(docs), order), overlapped),
                    Job(fp, Prepared(e, docs, order), ManifestOf(docs, order), CountsOf(e, docs, order)))
  {
    hide Prepared, ManifestOf, CountsOf;
    var snap := Approved(docs);
    ListedManifest(e, docs, order);
    PreparedSame(e, docs, snap, order);
    forall id
      ensures id in CountsOf(e, docs, order) <==> id in CountsOf(e, snap, order)
      ensures id in CountsOf(e, docs, order) ==> CountsOf(e, docs, order)[id] == CountsOf(e, snap, order)[id]
    {
      RowAt(e, docs, order, map[], "", id);
      RowAt(e, snap, order, map[], "", id);
    }
  }

  /** A load, said of the local variables. */
  lemma LoadIs(e: Env, s: World, w: WorkerId, snap: Docs, order: seq<DocId>, job: Job, start: nat, count: nat)
    requires w in s.workers && Matches(e, s.workers[w], job)
    requires s.workers[w].phase == Loading(snap, order, start)
    requires 1 <= count <= LOAD_BATCH && start + count <= |job.prepared|
    ensures Enabled(e, s, LoadSome(w, count))
    ensures var t := Apply(e, s, LoadSome(w, count));
            && t.docs == s.docs && t.config == s.config
            && t.store == Load(s.store, job.prepared[start..start + count])
            && w in t.workers && t.workers[w] == s.workers[w].(phase := Loading(snap, order, start + count))
  {
    hide Prepared, Load;
    ListingIsOrdered(snap, order);
  }

  /** An edit, column by column: one field that differs is enough for a new version and
      cleared index columns. */
  ghost predicate Edited(e: Env, was: Document, row: Document, title: Option<string>, scope: Option<string>,
                         content: Option<string>)
  {
    if (title == None || title.value == was.body.title) && (scope == None || scope.value == was.body.scope)
       && (content == None || content.value == was.body.content)
    then row == was
    else
      && row.body.title == (if title.Some? then title.value else was.body.title)
      && row.body.scope == (if scope.Some? then scope.value else was.body.scope)
      && row.body.content == (if content.Some? then content.value else was.body.content)
      && row.body.sourceType == was.body.sourceType && row.body.sourceRef == was.body.sourceRef
      && row.version == was.version + 1 && row.sha == e.sha256(row.body.content)
      && row.approved == was.approved && row.indexedFp == None && row.chunkCount == 0
  }

  /** When a rebuild may publish, written out: the word is still its own, the fingerprint is,
      and the approved documents are those it saw, at the same versions and hashes. */
  lemma MayPublishMeans(c: Config, docs: Docs, fp: Fingerprint, snap: Docs)
    ensures MayPublish(c, docs, fp, snap)
            <==> && c.indexState == Rebuilding && c.modelFp == fp
                 && (forall id :: (id in docs && docs[id].approved) == (id in snap && snap[id].approved))
                 && forall id :: id in docs && docs[id].approved ==>
                      docs[id].version == snap[id].version && docs[id].sha == snap[id].sha
  {
    if MayPublish(c, docs, fp, snap) {
      forall id
        ensures (id in docs && docs[id].approved) == (id in snap && snap[id].approved)
      {
        assert id in Manifest(docs) <==> id in Manifest(snap);
      }
      forall id | id in docs && docs[id].approved
        ensures docs[id].version == snap[id].version && docs[id].sha == snap[id].sha
      {
        assert Manifest(docs)[id] == Manifest(snap)[id];
      }
    }
  }

  /** What publishing writes, row by row. */
  lemma PublishedRow(e: Env, docs: Docs, snap: Docs, fp: Fingerprint, id: DocId)
    requires id in docs
    ensures id in PublishDocs(e, docs, snap, fp)
    ensures var was, row := docs[id], PublishDocs(e, docs, snap, fp)[id];
            && row.body == was.body && row.sha == was.sha && row.version == was.version && row.approved == was.approved
            && (!was.approved ==> row == was)
            && (was.approved ==>
                  && row.indexedFp == Some(fp)
                  && row.chunkCount == if id in snap then |e.split(snap[id].body.content, snap[id].body.title)| else 0)
  {
  }

  /** The last step of a rebuild, said of its local variables. */
  lemma FinishIs(e: Env, s: World, w: WorkerId, snap: Docs, order: seq<DocId>, job: Job)
    requires w in s.workers && Matches(e, s.workers[w], job)
    requires s.workers[w].phase == Loading(snap, order, |job.prepared|)
    ensures Enabled(e, s, Finish(w))
    ensures var t := Apply(e, s, Finish(w));
            && t.store == s.store
            && if MayPublish(s.config, s.docs, job.fp, snap)
               then t.docs == PublishDocs(e, s.docs, snap, job.fp)
                    && t.config == PublishConfig(s.config, |job.prepared|)
               else t.docs == s.docs && t.config == MarkStale(s.config)
  {
    hide Prepared, PublishDocs, PublishConfig;
    ListingIsOrdered(snap, order);
  }

  predicate Moves(step: Step, w: WorkerId) {
    match step
    case Start(v, _) => v == w
    case Snapshot(v, _) => v == w
    case Reset(v) => v == w
    case LoadSome(v, _) => v == w
    case Finish(v) => v == w
    case Fail(v) => v == w
    case _ => false
  }

  /** Whatever anybody else does between the parts of a rebuild, its local variables stay
      right, and it is where it was. */
  lemma OthersKeepJob(e: Env, s: World, step: Step, w: WorkerId, job: Job)
    requires Enabled(e, s, step) && !Moves(step, w) && w in s.workers && Matches(e, s.workers[w], job)
    ensures w in Apply(e, s, step).workers
    ensures Apply(e, s, step).workers[w].phase == s.workers[w].phase
    ensures Matches(e, Apply(e, s, step).workers[w], job)
  {
    hide Prepared, IsListing;
    match step
    case Create(_, _) =>
    case Update(_, _, _, _) =>
    case Delete(_) =>
    case Start(v, _) =>
    case Snapshot(v, _) =>
    case Reset(v) =>
    case LoadSome(v, _) =>
    case Finish(v) =>
    case Fail(v) =>
    case _ =>
  }

  function Size(start: nat, n: nat): nat
    requires start < n
  {
    if start + LOAD_BATCH < n then LOAD_BATCH else n - start
  }

  /** The loads that bring the first `end` records into the store: 64 each, or the rest. */
  ghost function Batches(w: WorkerId, end: nat): seq<Step> {
    if end == 0 then []
    else
      var start := (end - 1) / LOAD_BATCH * LOAD_BATCH;
      Batches(w, start) + [LoadSome(w, end - start)]
  }

  predicate Breaks(fault: Fault, n: nat) {
    fault.ResetFails? || (fault.LoadFails? && fault.batch * 64 < n)
  }

  /** What a broken rebuild leaves in the store. */
  function Remains(store: Store, prepared: seq<Entry>, fault: Fault): Store
    requires Breaks(fault, |prepared|)
  {
    match fault
    case ResetFails(dropped) => if dropped then map[] else store
    case LoadFails(b) => Load(map[], prepared[..b * 64])
  }

  /** The steps of a rebuild after its snapshot of `n` records, when nobody disturbs it. */
  ghost function LoadSteps(w: WorkerId, n: nat, fault: Fault): seq<Step> {
    if !Breaks(fault, n) then [Reset(w)] + Batches(w, n) + [Finish(w)]
    else if fault == ResetFails(false) then [Fail(w)]
    else if fault == ResetFails(true) then [Reset(w), Fail(w)]
    else [Reset(w)] + Batches(w, fault.batch * 64) + [Fail(w)]
  }

  ghost function RebuildSteps(w: WorkerId, fromQueue: bool, order: seq<DocId>, n: nat, fault: Fault): seq<Step> {
    [Start(w, fromQueue)]
    + if n > 20_000 then [Fail(w)] else [Snapshot(w, order)] + LoadSteps(w, n, fault)
  }

  class KnowledgeService {
    const env: Env
    var docs: Docs
    var config: Config
    var store: Store
    ghost var states: seq<World>
    ghost var steps: seq<Step>

    /** The rows and the store are those of the last world of a run. */
    ghost predicate Valid()
      reads this
    {
      IsRun(env, states, steps) && Shows(Now())
    }

    ghost function Now(): World
      requires |states| == |steps| + 1
      reads this`states, this`steps
    {
      states[|steps|]
    }

    ghost predicate Shows(s: World)
      reads this`docs, this`config, this`store
    {
      docs == s.docs && config == s.config && store == s.store
    }

    /** The run has grown by this step. */
    ghost predicate Took(was: seq<World>, did: seq<Step>, step: Step)
      reads this`states, this`steps
    {
      && |was| == |did| + 1 && Enabled(env, was[|did|], step)
      && steps == did + [step] && states == was + [Apply(env, was[|did|], step)]
    }

    constructor (env: Env, config: Config)
      requires config.indexState == Empty && config.indexedChunks == 0 && config.indexedFp == None
      ensures Valid() && steps == [] && docs == map[] && this.config == config && this.env == env
    {
      this.env, docs, this.config, store := env, map[], config, map[];
      states, steps := [World(map[], config, map[], 0, map[], map[])], [];
    }

    /** Whatever calls were made, in whatever order: a quiet `ready` index is exact. */
    lemma ReadyIsExact()
      requires Valid() && config.indexState == Ready && Quiet(Now())
      ensures Exact(env, docs, store) && SaysAll(env, docs, store)
    {
      ReadyMeansExact(env, states, steps, |steps|);
    }

    /** The state word of an index that has to be rebuilt, with nothing published. */
    predicate IsStale()
      reads this`config
    {
      config.indexState == Stale && config.indexedFp == None && config.indexedChunks == 0
    }

    ghost method Take(step: Step)
      requires IsRun(env, states, steps) && Enabled(env, Now(), step)
      requires Shows(Apply(env, Now(), step))
      modifies this`states, this`steps
      ensures Valid() && Took(old(states), old(steps), step)
    {
      hide IsRun, Enabled, Apply;
      RunLength(env, states, steps);
      ExtendRun(env, states, steps, step);
      states, steps := states + [Apply(env, Now(), step)], steps + [step];
    }

    // -------------------------------------------------------------- the rows

    method CreateDocument(id: DocId, body: Body)
      requires Valid() && Enabled(env, Now(), Create(id, body))
      modifies this
      ensures Valid() && Took(old(states), old(steps), Create(id, body))
      ensures docs == old(docs)[id := Document(body, env.sha256(body.content), 1, true, None, 0)]
      ensures IsStale() && store == old(store)
    {
      hide IsRun;
      docs := docs[id := Document(body, env.sha256(body.content), 1, true, None, 0)];
      config := MarkStale(config);
      Take(Create(id, body));
    }

    /** Each field given is compared and written on its own; one changed field is enough
        for a new version and cleared columns. */
    method EditRow(was: Document, title: Option<string>, scope: Option<string>, content: Option<string>)
      returns (changed: bool, row: Document)
      ensures Edited(env, was, row, title, scope, content)
      ensures row == EditDocument(env, was, EditBody(was.body, title, scope, content))
      ensures changed <==> row != was
    {
      var body := was.body;
      changed := false;
      if title.Some? {
        changed := changed || title.value != body.title;
        body := body.(title := title.value);
      }
      if scope.Some? {
        changed := changed || scope.value != body.scope;
        body := body.(scope := scope.value);
      }
      if content.Some? {
        changed := changed || content.value != body.content;
        body := body.(content := content.value);
      }
      row := was;
      if changed {
        row := Document(body, env.sha256(body.content), row.version + 1, row.approved, None, 0);
      }
    }

    /** A changed row makes the index stale; without a change nothing happens. */
    method UpdateDocument(id: DocId, title: Option<string>, scope: Option<string>, content: Option<string>)
      returns (r: Result<Document, ServiceError>)
      requires Valid()
      modifies this
      ensures Valid()
      ensures id !in old(docs) ==> r == Failure(NotFound) && Unchanged(old(states), old(steps))
      ensures id in old(docs) ==>
                Took(old(states), old(steps), Update(id, title, scope, content)) && r == Success(docs[id])
      ensures id in old(docs) ==>
                && Edited(env, old(docs)[id], docs[id], title, scope, content)
                && docs == old(docs)[id := docs[id]] && store == old(store)
                && (if docs[id] == old(docs)[id] then config == old(config) else IsStale())
    {
      hide IsRun, EditDocument, EditBody, Edited;
      RunLength(env, states, steps);
      if id !in docs {
        return Failure(NotFound);
      }
      var changed, row := EditRow(docs[id], title, scope, content);
      if changed {
        docs := docs[id := row];
        config := MarkStale(config);
      }
      Take(Update(id, title, scope, content));
      return Success(row);
    }

    ghost predicate Unchanged(was: seq<World>, did: seq<Step>)
      reads this`states, this`steps
    {
      states == was && steps == did
    }

    method DeleteDocument(id: DocId) returns (r: Result<(), ServiceError>)
      requires Valid()
      modifies this
      ensures Valid()
      ensures id !in old(docs) ==> r == Failure(NotFound) && Unchanged(old(states), old(steps))
      ensures id in old(docs) ==> r == Success(()) && Took(old(states), old(steps), Delete(id))
      ensures id in old(docs) ==> docs == old(docs) - {id} && IsStale() && store == old(store)
    {
      hide IsRun;
      RunLength(env, states, steps);
      if id !in docs {
        return Failure(NotFound);
      }
      docs := docs - {id};
      config := MarkStale(config);
      Take(Delete(id));
      return Success(());
    }

    /** `fp` is the fingerprint of the validated settings being saved. */
    method SaveConfig(fp: Fingerprint)
      requires Valid()
      modifies this
      ensures Valid() && Took(old(states), old(steps), Save(fp))
      ensures config.modelFp == fp && config.settingsFp == fp && docs == old(docs) && store == old(store)
      ensures if fp == old(config).modelFp then config == old(config).(settingsFp := fp) else IsStale()
      ensures ReportedState(config) == Ready ==>
                ReportedState(old(config)) == Ready || old(config).modelFp == fp
    {
      hide IsRun;
      RunLength(env, states, steps);
      var changed := fp != config.modelFp;
      config := config.(settingsFp := fp, modelFp := fp);
      if changed {
        config := config.(indexState := Stale, indexedFp := None, indexedChunks := 0);
      }
      Take(Save(fp));
    }

    /** `dropped` says that the error was the failure to queue a requested rebuild. */
    method MarkIndexError(ghost dropped: bool)
      requires Valid() && (dropped ==> Now().pending > 0)
      modifies this
      ensures Valid() && Took(old(states), old(steps), IndexError(dropped))
      ensures config == old(config).(indexState := Error, indexedFp := None, indexedChunks := 0)
    {
      hide IsRun;
      RunLength(env, states, steps);
      config := config.(indexState := Error, indexedFp := None, indexedChunks := 0);
      Take(IndexError(dropped));
    }

    method RequestReindex() returns (r: Result<Config, ServiceError>)
      requires Valid()
      modifies this
      ensures Valid()
      ensures old(config).indexState == Rebuilding ==> r == Failure(Conflict) && Unchanged(old(states), old(steps))
      ensures old(config).indexState != Rebuilding ==>
                r == Success(config) && Took(old(states), old(steps), Request)
                && config == old(config).(indexState := Rebuilding)
    {
      hide IsRun;
      RunLength(env, states, steps);
      if config.indexState == Rebuilding {
        return Failure(Conflict);
      }
      config := config.(indexState := Rebuilding);
      Take(Request);
      return Success(config);
    }

    // -------------------------------------------------------------- the parts of a rebuild

    /** The first transaction. */
    method Begin(ghost w: WorkerId, ghost fromQueue: bool) returns (fp: Fingerprint)
      requires Valid() && Enabled(env, Now(), Start(w, fromQueue))
      modifies this
      ensures Valid() && Took(old(states), old(steps), Start(w, fromQueue))
      ensures IsAt(w, Started) && Now().workers[w].snapshotFp == fp
      ensures docs == old(docs) && store == old(store) && config == StartConfig(old(config)) && fp == config.modelFp
      ensures steps == old(steps) + [Start(w, fromQueue)]
    {
      hide IsRun;
      RunLength(env, states, steps);
      if config.modelFp != config.settingsFp {
        config := config.(modelFp := config.settingsFp, indexedFp := None, indexedChunks := 0);
      }
      config := config.(indexState := Rebuilding);
      fp := config.modelFp;
      Take(Start(w, fromQueue));
    }

    ghost predicate IsAt(w: WorkerId, phase: Phase)
      reads this`states, this`steps
    {
      |states| == |steps| + 1 && w in Now().workers && Now().workers[w].phase == phase
    }

    ghost predicate Present(w: WorkerId)
      reads this`states, this`steps
    {
      |states| == |steps| + 1 && w in Now().workers
    }

    /** The worker is there, in this phase, and `job` is what it remembers. */
    ghost predicate Runs(w: WorkerId, phase: Phase, job: Job)
      reads this`states, this`steps
    {
      IsAt(w, phase) && Matches(env, Now().workers[w], job)
    }

    /** The query for the approved documents and the loop over them. */
    method TakeSnapshot(ghost w: WorkerId, fp: Fingerprint, order: seq<DocId>) returns (job: Option<Job>)
      requires Valid() && IsAt(w, Started) && Now().workers[w].snapshotFp == fp && IsListing(order, docs)
      modifies this`states, this`steps
      ensures Valid() && Present(w)
      ensures job.None? <==> |Prepared(env, docs, order)| > 20_000
      ensures job.None? ==> Unchanged(old(states), old(steps)) && steps == old(steps)
      ensures job.Some? ==>
                && Took(old(states), old(steps), Snapshot(w, order))
                && Runs(w, Snapped(Approved(docs), order), job.value)
                && job.value.prepared == Prepared(env, docs, order) && job.value.fp == fp
                && steps == old(steps) + [Snapshot(w, order)]
    {
      hide IsRun, Matches, IsListing, Prepared;
      RunLength(env, states, steps);
      ListingIsOrdered(docs, order);
      var ok, prepared, manifest, counts := PrepareChunks(order);
      if !ok {
        return None;
      }
      Take(Snapshot(w, order));
      SnapshotMatches(env, docs, order, fp, Now().workers[w].overlapped);
      return Some(Job(fp, prepared, manifest, counts));
    }

    /** Reads the snapshot: every chunk of every listed document, unless there are too many. */
    method PrepareChunks(order: seq<DocId>)
      returns (ok: bool, prepared: seq<Entry>, manifest: map<DocId, (nat, string)>, counts: map<DocId, nat>)
      requires Ordered(docs, order)
      ensures ok <==> |Prepared(env, docs, order)| <= 20_000
      ensures ok ==>
                && prepared == Prepared(env, docs, order)
                && manifest == ManifestOf(docs, order)
                && counts == CountsOf(env, docs, order)
    {
      ok, prepared, manifest, counts := true, [], map[], map[];
      for i := 0 to |order|
        invariant prepared == Prepared(env, docs, order[..i]) && |prepared| <= MAX_INDEX_CHUNKS
        invariant manifest == ManifestOf(docs, order[..i])
        invariant counts == CountsOf(env, docs, order[..i])
      {
        var id := order[i];
        var entries := DocEntries(env, id, docs[id]);
        assert order[..i + 1][..i] == order[..i];
        if |prepared| + |entries| > MAX_INDEX_CHUNKS {
          PreparedPrefix(env, docs, order, i + 1);
          return false, prepared, manifest, counts;
        }
        manifest := manifest[id := (docs[id].version, docs[id].sha)];
        counts := counts[id := |entries|];
        prepared := prepared + entries;
      }
      assert order[..|order|] == order;
    }

    /** The store is dropped and created again. */
    method ResetStore(ghost w: WorkerId, ghost snap: Docs, ghost order: seq<DocId>, job: Job)
      requires Valid() && Runs(w, Snapped(snap, order), job)
      modifies this
      ensures Valid() && Took(old(states), old(steps), Reset(w))
      ensures Runs(w, Loading(snap, order, 0), job)
      ensures docs == old(docs) && config == old(config) && store == map[]
    {
      hide IsRun, Prepared, IsListing;
      RunLength(env, states, steps);
      store := map[];
      Take(Reset(w));
    }

    /** One batch of at most 64 records. */
    method LoadBatch(ghost w: WorkerId, ghost snap: Docs, ghost order: seq<DocId>, job: Job, start: nat)
      returns (end: nat)
      requires Valid() && Runs(w, Loading(snap, order, start), job) && start < |job.prepared|
      modifies this
      ensures Valid() && end == start + Size(start, |job.prepared|)
      ensures end == if start + 64 < |job.prepared| then start + 64 else |job.prepared|
      ensures Took(old(states), old(steps), LoadSome(w, end - start))
      ensures Runs(w, Loading(snap, order, end), job)
      ensures docs == old(docs) && config == old(config)
      ensures store == Load(old(store), job.prepared[start..end])
    {
      hide IsRun, Prepared, IsListing, Load, Apply, Enabled;
      RunLength(env, states, steps);
      LoadIs(env, Now(), w, snap, order, job, start, Size(start, |job.prepared|));
      end := if start + LOAD_BATCH < |job.prepared| then start + LOAD_BATCH else |job.prepared|;
      store := Load(store, job.prepared[start..end]);
      Take(LoadSome(w, end - start));
    }

    /** The last transaction: compare with the rows as they are now, then publish or give up. */
    method Publish(ghost w: WorkerId, ghost snap: Docs, ghost order: seq<DocId>, job: Job, laterOrder: seq<DocId>)
      requires Valid() && Runs(w, Loading(snap, order, |job.prepared|), job) && IsListing(laterOrder, docs)
      modifies this
      ensures Valid() && Took(old(states), old(steps), Finish(w))
      ensures store == old(store) && steps == old(steps) + [Finish(w)]
      ensures if MayPublish(old(config), old(docs), job.fp, snap)
              then docs == PublishDocs(env, old(docs), snap, job.fp)
                   && config == PublishConfig(old(config), |job.prepared|)
              else docs == old(docs) && config == MarkStale(old(config))
      ensures if MayPublish(old(config), old(docs), job.fp, snap)
              then config == old(config).(indexedFp := Some(job.fp), indexedChunks := |job.prepared|,
                                          indexState := if job.prepared == [] then Empty else Ready)
              else IsStale()
    {
      hide IsRun, Apply, Enabled, IsListing, Prepared, Manifest;
      RunLength(env, states, steps);
      FinishIs(env, Now(), w, snap, order, job);
      if config.indexState != Rebuilding || config.modelFp != job.fp || Manifest(docs) != job.manifest {
        config := MarkStale(config);
      } else {
        ListingIsOrdered(docs, laterOrder);
        ListedPublished(env, snap, order, docs, laterOrder, job.fp);
        WriteRows(laterOrder, job);
        config := config.(indexedFp := Some(config.modelFp), indexedChunks := |job.prepared|,
                          indexState := if |job.prepared| > 0 then Ready else Empty);
      }
      Take(Finish(w));
    }

    method WriteRows(order: seq<DocId>, job: Job)
      requires Ordered(docs, order)
      modifies this`docs
      ensures docs == PublishedOf(old(docs), order, job.counts, job.fp)
    {
      for j := 0 to |order|
        invariant docs == PublishedOf(old(docs), order[..j], job.counts, job.fp)
      {
        var id := order[j];
        assert order[..j + 1][..j] == order[..j];
        RowAt(env, old(docs), order[..j], job.counts, job.fp, id);
        docs := docs[id := docs[id].(chunkCount := if id in job.counts then job.counts[id] else 0,
                                     indexedFp := Some(job.fp))];
      }
      assert order[..|order|] == order;
    }

    /** The exception handler. */
    method GiveUp(ghost w: WorkerId)
      requires Valid() && Present(w)
      modifies this
      ensures Valid() && Took(old(states), old(steps), Fail(w))
      ensures docs == old(docs) && store == old(store)
      ensures config == old(config).(indexState := Error, indexedFp := None, indexedChunks := 0)
      ensures config == MarkError(old(config))
      ensures steps == old(steps) + [Fail(w)]
    {
      hide IsRun;
      RunLength(env, states, steps);
      config := MarkError(config);
      Take(Fail(w));
    }

    // -------------------------------------------------------------- a whole rebuild

    /** Empties the store and loads the chunks in batches of 64. */
    method FillStore(ghost w: WorkerId, ghost snap: Docs, ghost order: seq<DocId>, job: Job, fault: Fault)
      returns (ok: bool)
      requires Valid() && Runs(w, Snapped(snap, order), job)
      modifies this
      ensures Valid() && Present(w) && docs == old(docs) && config == old(config)
      ensures ok <==> !Breaks(fault, |job.prepared|)
      ensures fault == ResetFails(false) ==>
                store == old(store) && steps == old(steps) && IsAt(w, Snapped(snap, order))
      ensures fault == ResetFails(true) ==>
                store == map[] && steps == old(steps) + [Reset(w)] && IsAt(w, Loading(snap, order, 0))
      ensures fault.LoadFails? && !ok ==>
                var done := fault.batch * 64;
                && store == Load(map[], job.prepared[..done])
                && steps == old(steps) + ([Reset(w)] + Batches(w, done)) && IsAt(w, Loading(snap, order, done))
      ensures ok ==>
                && store == Load(map[], job.prepared)
                && steps == old(steps) + ([Reset(w)] + Batches(w, |job.prepared|))
                && Runs(w, Loading(snap, order, |job.prepared|), job)
    {
      hide IsRun, Matches, Load, Batches, IsListing, Prepared, Apply, Enabled;
      if fault == ResetFails(false) {
        return false;
      }
      ResetStore(w, snap, order, job);
      if fault == ResetFails(true) {
        return false;
      }
      NothingLoaded(w, job.prepared);
      var start, batch := 0, 0;
      while start < |job.prepared|
        invariant start == if batch * LOAD_BATCH < |job.prepared| then batch * LOAD_BATCH else |job.prepared|
        invariant fault.LoadFails? ==> fault.batch >= batch || fault.batch * LOAD_BATCH >= |job.prepared|
        invariant Valid() && docs == old(docs) && config == old(config)
        invariant Runs(w, Loading(snap, order, start), job)
        invariant store == Load(map[], job.prepared[..start])
        invariant steps == old(steps) + ([Reset(w)] + Batches(w, start))
        decreases |job.prepared| - start
      {
        if fault == LoadFails(batch) {
          return false;
        }
        ghost var did := steps;
        var end := LoadBatch(w, snap, order, job, start);
        MoreLoaded(w, job.prepared, start, end, batch);
        assert steps == did + [LoadSome(w, end - start)];
        start, batch := end, batch + 1;
      }
      assert job.prepared[..start] == job.prepared;
      return true;
    }

    /** The store, then the rows, when nobody disturbed the rows. */
    method LoadAndPublish(ghost w: WorkerId, order: seq<DocId>, job: Job, fault: Fault) returns (ok: bool)
      requires Valid() && Runs(w, Snapped(Approved(docs), order), job) && IsListing(order, docs)
      requires MayPublish(config, docs, job.fp, Approved(docs))
      modifies this
      ensures Valid() && steps == old(steps) + LoadSteps(w, |job.prepared|, fault)
      ensures ok <==> !Breaks(fault, |job.prepared|)
      ensures !ok ==> store == Remains(old(store), job.prepared, fault)
      ensures !ok ==> docs == old(docs) && config == MarkError(old(config))
      ensures ok ==>
                && store == Load(map[], job.prepared)
                && docs == PublishDocs(env, old(docs), Approved(old(docs)), job.fp)
                && config == PublishConfig(old(config), |job.prepared|)
    {
      hide IsRun, Matches, Load, Batches, IsListing, Prepared, Apply, Enabled, Valid, Took, Runs, Present, IsAt, Now,
        PublishDocs, PublishConfig, MayPublish, Approved, MarkError;
      ghost var snap := Approved(docs);
      ok := FillStore(w, snap, order, job, fault);
      if ok {
        Publish(w, snap, order, job, order);
      } else {
        GiveUp(w);
      }
    }

    /**
     A whole rebuild, undisturbed. It is a run of the transition system, with the batches of
     64 as its loads; what it leaves is what its last step leaves.
     */
    method Reindex(ghost w: WorkerId, ghost fromQueue: bool, order: seq<DocId>, fault: Fault)
      returns (r: Result<Config, ReindexError>)
      requires Valid() && Enabled(env, Now(), Start(w, fromQueue)) && IsListing(order, docs)
      modifies this
      ensures Valid()
      ensures steps == old(steps) + RebuildSteps(w, fromQueue, order, |Prepared(env, old(docs), order)|, fault)
      ensures var all := Prepared(env, old(docs), order);
              r == if |all| > 20_000 then Failure(TooManyChunks)
                   else if Breaks(fault, |all|) then Failure(StoreUnavailable)
                   else Success(config)
      ensures r == Failure(TooManyChunks) ==> store == old(store)
      ensures r == Failure(StoreUnavailable) ==> store == Remains(old(store), Prepared(env, old(docs), order), fault)
      ensures r.Failure? ==> docs == old(docs) && config == MarkError(StartConfig(old(config)))
      ensures r.Success? ==>
                var all, fp := Prepared(env, old(docs), order), StartConfig(old(config)).modelFp;
                && store == Load(map[], all)
                && docs == PublishDocs(env, old(docs), Approved(old(docs)), fp)
                && config == PublishConfig(StartConfig(old(config)), |all|)
                && Exact(env, docs, store) && SaysAll(env, docs, store)
    {
      hide IsRun, Matches, Load, Batches, IsListing, Prepared, Apply, Enabled, Exact, SaysAll, Valid, Took, Runs, Present,
        IsAt, Now, PublishDocs, PublishConfig, MayPublish, Unchanged, StartConfig, Approved, LoadSteps;
      UndisturbedRebuild(env, docs, config, order);
      var fp := Begin(w, fromQueue);
      var job := TakeSnapshot(w, fp, order);
      if job == None {
        GiveUp(w);
        return Failure(TooManyChunks);
      }
      var ok := LoadAndPublish(w, order, job.value, fault);
      return if ok then Success(config) else Failure(StoreUnavailable);
    }
  }

  lemma RunLength(e: Env, states: seq<World>, steps: seq<Step>)
    requires IsRun(e, states, steps)
    ensures |states| == |steps| + 1
  {
  }

  lemma ListingIsOrdered(docs: Docs, order: seq<DocId>)
    requires IsListing(order, docs)
    ensures Ordered(docs, order)
  {
  }

  lemma NothingLoaded(w: WorkerId, prepared: seq<Entry>)
    ensures Load(map[], prepared[..0]) == map[] && Batches(w, 0) == []
  {
  }

  /** One more batch. */
  lemma MoreLoaded(w: WorkerId, prepared: seq<Entry>, start: nat, end: nat, batch: nat)
    requires start == batch * LOAD_BATCH < |prepared| && end == start + Size(start, |prepared|)
    ensures Load(Load(map[], prepared[..start]), prepared[start..end]) == Load(map[], prepared[..end])
    ensures Batches(w, end) == Batches(w, start) + [LoadSome(w, end - start)]
  {
    hide Load;
    LoadSplit(map[], prepared[..start], prepared[start..end]);
    assert prepared[..start] + prepared[start..end] == prepared[..end];
    LastBatch(w, start, end, batch);
  }

  lemma LastBatch(w: WorkerId, start: nat, end: nat, batch: nat)
    requires start == batch * LOAD_BATCH < end <= start + LOAD_BATCH
    ensures Batches(w, end) == Batches(w, start) + [LoadSome(w, end - start)]
  {
    assert (end - 1) / LOAD_BATCH == batch;
  }

  /** A rebuild that nobody disturbs publishes an exact index. */
  lemma UndisturbedRebuild(e: Env, docs: Docs, c: Config, order: seq<DocId>)
    requires IsListing(order, docs)
    ensures MayPublish(StartConfig(c), docs, StartConfig(c).modelFp, Approved(docs))
    ensures |Load(map[], Prepared(e, docs, order))| == |Prepared(e, docs, order)|
    ensures var t := PublishDocs(e, docs, Approved(docs), StartConfig(c).modelFp);
            && Exact(e, t, Load(map[], Prepared(e, docs, order)))
            && SaysAll(e, t, Load(map[], Prepared(e, docs, order)))
            && ReportedState(PublishConfig(StartConfig(c), |Prepared(e, docs, order)|))
               == if Prepared(e, docs, order) != [] then Ready else Empty
  {
    LoadedIsComplete(e, docs, order);
    ListedManifest(e, docs, order);
    ExactAfterPublish(e, docs, Approved(docs), StartConfig(c).modelFp, Load(map[], Prepared(e, docs, order)));
    ExactSaysAll(e, PublishDocs(e, docs, Approved(docs), StartConfig(c).modelFp), Load(map[], Prepared(e, docs, order)));
  }
}

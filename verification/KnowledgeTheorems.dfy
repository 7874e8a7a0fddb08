/** The promises of the index protocol, stated over whole runs. */
module KnowledgeTheorems {
  import opened Wrappers
  import opened KnowledgeIndex
  import opened KnowledgeChunks
  import opened KnowledgeSafety

  // ---------------------------------------------------------------- what the steps add up to

  /** The requests not yet taken up: accepted ones, less those a worker took or an error dropped. */
  ghost function Queued(steps: seq<Step>): int {
    if steps == [] then 0
    else
      Queued(steps[..|steps| - 1])
      + match steps[|steps| - 1]
        case Request => 1
        case Start(_, fromQueue) => if fromQueue then -1 else 0
        case IndexError(dropped) => if dropped then -1 else 0
        case _ => 0
  }

  /** The workers that started and have neither published nor given up. */
  ghost function InFlight(steps: seq<Step>): set<WorkerId> {
    if steps == [] then {}
    else
      var before := InFlight(steps[..|steps| - 1]);
      match steps[|steps| - 1]
      case Start(w, _) => before + {w}
      case Finish(w) => before - {w}
      case Fail(w) => before - {w}
      case _ => before
  }

  /** The fingerprint that the running code computes: the last one saved or deployed. */
  ghost function Settings(steps: seq<Step>, first: Fingerprint): Fingerprint {
    if steps == [] then first
    else
      match steps[|steps| - 1]
      case Save(fp) => fp
      case Redeploy(fp) => fp
      case _ => Settings(steps[..|steps| - 1], first)
  }

  lemma OneStepAccounts(e: Env, s: World, step: Step)
    requires Enabled(e, s, step)
    ensures var t := Apply(e, s, step);
            && t.pending == s.pending + (if step.Request? then 1 else 0) - (if step.Start? && step.fromQueue then 1 else 0)
                            - (if step.IndexError? && step.dropped then 1 else 0)
            && t.workers.Keys == (if step.Start? then s.workers.Keys + {step.w}
                                  else if step.Finish? || step.Fail? then s.workers.Keys - {step.w}
                                  else s.workers.Keys)
            && t.config.settingsFp == if step.Save? || step.Redeploy? then step.fp else s.config.settingsFp
  {
    hide Prepared, Load, Manifest;
  }

  /** Along every run the queue, the workers and the settings are what the steps made of
      them: a state is quiet if and only if every request was taken up or dropped and every
      worker that started has ended. */
  lemma {:induction false} StepsAddUp(e: Env, states: seq<World>, steps: seq<Step>, i: nat)
    requires IsRun(e, states, steps) && i < |states|
    ensures states[i].pending == Queued(steps[..i])
    ensures states[i].workers.Keys == InFlight(steps[..i])
    ensures states[i].config.settingsFp == Settings(steps[..i], states[0].config.settingsFp)
    ensures Quiet(states[i]) <==> Queued(steps[..i]) == 0 && InFlight(steps[..i]) == {}
  {
    hide Apply, Enabled;
    if i > 0 {
      StepsAddUp(e, states, steps, i - 1);
      OneStepAccounts(e, states[i - 1], steps[i - 1]);
      assert steps[..i][..i - 1] == steps[..i - 1];
    }
    assert states[i].workers == map[] <==> states[i].workers.Keys == {};
  }

  /** Worker `w` started with step `j` and has been the only worker ever since. */
  ghost predicate AloneSince(states: seq<World>, steps: seq<Step>, j: nat, i: nat, w: WorkerId)
    requires |states| == |steps| + 1 && i < |states|
  {
    && j < i && steps[j].Start? && steps[j].w == w
    && (forall m :: j < m <= i ==> states[m].workers.Keys == {w})
  }

  ghost predicate Starts(step: Step, w: WorkerId) {
    step.Start? && step.w == w
  }

  /** How one step moves a worker's mark. */
  lemma MarkStep(e: Env, s: World, step: Step, w: WorkerId)
    requires Enabled(e, s, step) && w in Apply(e, s, step).workers
    ensures Starts(step, w) ==>
              (!Apply(e, s, step).workers[w].overlapped <==> s.workers.Keys == {})
    ensures !Starts(step, w) ==>
              && w in s.workers
              && (!Apply(e, s, step).workers[w].overlapped
                  <==> !s.workers[w].overlapped && !step.Start?)
    ensures step.Start? ==> step.w in Apply(e, s, step).workers && step.w !in s.workers
    ensures step.Start? ==> s.workers.Keys <= Apply(e, s, step).workers.Keys
  {
    match step
    case Start(v, _) =>
      assert s.workers.Keys == {} <==> s.workers == map[];
    case Snapshot(_, _) =>
    case Reset(_) =>
    case LoadSome(_, _) =>
    case Finish(_) =>
    case Fail(_) =>
    case Create(_, _) =>
    case Update(_, _, _, _) =>
    case Delete(_) =>
    case _ =>
  }

  /** The same over a run, for the step that leads to state `i`. */
  lemma MarkMoves(e: Env, states: seq<World>, steps: seq<Step>, i: nat, w: WorkerId)
    requires IsRun(e, states, steps) && i < |states| && w in states[i].workers
    ensures i > 0
    ensures Starts(steps[i - 1], w) ==>
              (!states[i].workers[w].overlapped <==> states[i - 1].workers.Keys == {})
    ensures !Starts(steps[i - 1], w) ==>
              && w in states[i - 1].workers
              && (!states[i].workers[w].overlapped
                  <==> !states[i - 1].workers[w].overlapped && !steps[i - 1].Start?)
    ensures steps[i - 1].Start? ==>
              && steps[i - 1].w in states[i].workers && steps[i - 1].w !in states[i - 1].workers
              && states[i - 1].workers.Keys <= states[i].workers.Keys
    ensures !states[i].workers[w].overlapped ==> states[i].workers.Keys == {w}
  {
    InvRun(e, states, steps, i);
    assert WorkerInv(e, states[i], w);
    MarkStep(e, states[i - 1], steps[i - 1], w);
  }

  /** The `overlapped` mark says what its name says: a worker that is not marked has been
      the only worker since some step started it ... */
  lemma {:induction false} UnmarkedWasAlone(e: Env, states: seq<World>, steps: seq<Step>, i: nat, w: WorkerId)
    requires IsRun(e, states, steps) && i < |states| && w in states[i].workers
    requires !states[i].workers[w].overlapped
    ensures exists j: nat :: AloneSince(states, steps, j, i, w)
  {
    MarkMoves(e, states, steps, i, w);
    if Starts(steps[i - 1], w) {
      assert AloneSince(states, steps, i - 1, i, w);
    } else {
      UnmarkedWasAlone(e, states, steps, i - 1, w);
      var j: nat :| AloneSince(states, steps, j, i - 1, w);
      assert AloneSince(states, steps, j, i, w);
    }
  }

  /** ... and a worker that has been the only one is not marked. */
  lemma {:induction false} AloneIsUnmarked(e: Env, states: seq<World>, steps: seq<Step>, j: nat, i: nat, w: WorkerId)
    requires IsRun(e, states, steps) && i < |states| && AloneSince(states, steps, j, i, w)
    ensures w in states[i].workers && !states[i].workers[w].overlapped
  {
    assert w in states[i].workers.Keys;
    MarkMoves(e, states, steps, i, w);
    if j < i - 1 {
      assert states[i - 1].workers.Keys == {w};
      AloneIsUnmarked(e, states, steps, j, i - 1, w);
    } else {
      assert states[i - 1].workers.Keys <= {w} && w !in states[i - 1].workers.Keys;
      assert states[i - 1].workers.Keys == {};
    }
  }

  /** The state word `rebuilding`, one worker in flight and no queued request: then that
      worker has been alone since it started. */
  lemma LoneRebuilderWasAlone(e: Env, states: seq<World>, steps: seq<Step>, i: nat, w: WorkerId)
    requires IsRun(e, states, steps) && i < |states|
    requires states[i].config.indexState == Rebuilding && states[i].pending == 0
    requires states[i].workers.Keys == {w}
    ensures exists j: nat :: AloneSince(states, steps, j, i, w)
  {
    InvRun(e, states, steps, i);
    assert w in states[i].workers.Keys;
    UnmarkedWasAlone(e, states, steps, i, w);
  }

  /** Quiescent completeness. */
  lemma ReadyMeansExact(e: Env, states: seq<World>, steps: seq<Step>, i: nat)
    requires IsRun(e, states, steps) && i < |states|
    requires states[i].config.indexState == Ready && Quiet(states[i])
    ensures Exact(e, states[i].docs, states[i].store)
    ensures SaysAll(e, states[i].docs, states[i].store)
    ensures forall id :: id in states[i].docs ==>
              && states[i].docs[id].approved
              && states[i].docs[id].indexedFp == Some(states[i].config.modelFp)
  {
    InvRun(e, states, steps, i);
    ExactSaysAll(e, states[i].docs, states[i].store);
  }

  lemma LoneFinish(e: Env, s: World, w: WorkerId)
    requires LoneInv(s) && CanFinish(e, s, w) && WorkerInv(e, s, w)
    requires s.config.indexState == Rebuilding && s.pending == 0 && s.workers.Keys == {w}
    ensures var t := DoFinish(e, s, w);
            && t.config.indexState in {Ready, Empty} && Quiet(t)
            && Exact(e, t.docs, t.store)
            && |t.store| == t.config.indexedChunks
  {
    var k := s.workers[w];
    LoadedExact(e, s, w);
    ExactAfterPublish(e, s.docs, k.phase.snap, k.snapshotFp, s.store);
    LoadedSize(e, s, w);
  }

  /** A finishing worker that nobody overlaps and no request follows always publishes,
      and what it publishes is exact. */
  lemma LoneRebuilderPublishes(e: Env, states: seq<World>, steps: seq<Step>, i: nat, w: WorkerId)
    requires IsRun(e, states, steps) && i < |states|
    requires states[i].config.indexState == Rebuilding && states[i].pending == 0
    requires states[i].workers.Keys == {w} && Enabled(e, states[i], Finish(w))
    ensures var t := Apply(e, states[i], Finish(w));
            && t.config.indexState in {Ready, Empty} && Quiet(t)
            && Exact(e, t.docs, t.store)
            && |t.store| == t.config.indexedChunks
  {
    InvRun(e, states, steps, i);
    LoneFinish(e, states[i], w);
  }

  /** Rebuild accounting, in every reachable state, quiet or not. */
  lemma PublishedCounters(e: Env, states: seq<World>, steps: seq<Step>, i: nat, order: seq<DocId>)
    requires IsRun(e, states, steps) && i < |states|
    requires states[i].config.indexState in {Ready, Empty} && IsListing(order, states[i].docs)
    ensures Ordered(states[i].docs, order)
    ensures states[i].config.indexedChunks == ChunkTotal(states[i].docs, order)
    ensures states[i].config.indexedChunks <= 20_000
    ensures states[i].config.indexState == Ready <==> states[i].config.indexedChunks > 0
  {
    InvRun(e, states, steps, i);
  }

  /** A rebuild that publishes `empty` found no chunk in any document. */
  lemma EmptyMeansNoChunks(e: Env, states: seq<World>, steps: seq<Step>, i: nat, w: WorkerId, id: DocId)
    requires IsRun(e, states, steps) && i < |states| && Enabled(e, states[i], Finish(w))
    requires Apply(e, states[i], Finish(w)).config.indexState == Empty
    requires id in states[i].docs
    ensures ChunksOf(e, states[i].docs[id].body) == []
  {
    InvRun(e, states, steps, i);
    assert WorkerInv(e, states[i], w);
    PublishedAccount(e, states[i], w);
    var p := states[i].workers[w].phase;
    if ChunksOf(e, states[i].docs[id].body) != [] {
      var k := PreparedHas(e, p.snap, p.order, id, 0);
    }
  }

  /** The word `rebuilding` never outlives the work it announces. */
  lemma RebuildingHasOwner(e: Env, states: seq<World>, steps: seq<Step>, i: nat)
    requires IsRun(e, states, steps) && i < |states|
    requires states[i].config.indexState == Rebuilding
    ensures !Quiet(states[i])
  {
    InvRun(e, states, steps, i);
  }

  lemma {:induction false} HistoryOnlyGrows(e: Env, states: seq<World>, steps: seq<Step>, i: nat, j: nat)
    requires IsRun(e, states, steps) && i <= j < |states|
    ensures Grows(states[i].history, states[j].history)
  {
    if i < j {
      HistoryOnlyGrows(e, states, steps, i, j - 1);
      InvRun(e, states, steps, j - 1);
      HistoryStep(e, states[j - 1], steps[j - 1]);
    }
  }

  /** With no assumption on what else runs: a record read from the store at any moment
      `j`, matched by version against the documents of any moment `i`, earlier or later,
      is that document's chunk. */
  lemma StoredRecordIsCurrent(e: Env, states: seq<World>, steps: seq<Step>, i: nat, j: nat, k: Key)
    requires IsRun(e, states, steps) && i < |states| && j < |states|
    requires k in states[j].store
    requires k.doc in states[i].docs && k.version == states[i].docs[k.doc].version
    ensures IsCurrentKey(e, states[i].docs, k)
    ensures states[j].store[k] == CurrentRecord(e, states[i].docs, k)
    ensures Says(e, states[i].docs[k.doc], k, states[j].store[k])
  {
    InvRun(e, states, steps, i);
    InvRun(e, states, steps, j);
    if i <= j {
      HistoryOnlyGrows(e, states, steps, i, j);
    } else {
      HistoryOnlyGrows(e, states, steps, j, i);
    }
    assert FromHistory(e, states[j].history, k, states[j].store[k]);
  }

  // ------------------------------------------------- why both parts of Quiet are needed

  const ONE_CHUNK := Env((content, title) => [Chunk(content, title)], content => content)
  const A_BODY := Body("Disk", "runbook", "", "global", "check inodes")
  const FRESH := World(map[], Config("fp", "fp", Empty, None, 0), map[], 0, map[], map[])

  lemma OneChunkPrepared(docs: Docs)
    requires 7 in docs && docs[7].approved
    ensures Ordered(docs, [7])
    ensures |Prepared(ONE_CHUNK, docs, [7])| == 1
  {
    assert Prepared(ONE_CHUNK, docs, [7])
        == Prepared(ONE_CHUNK, docs, []) + DocEntries(ONE_CHUNK, 7, docs[7]);
  }

  lemma {:induction false} ExtendRun(e: Env, states: seq<World>, steps: seq<Step>, step: Step)
    requires IsRun(e, states, steps) && Enabled(e, states[|steps|], step)
    ensures IsRun(e, states + [Apply(e, states[|steps|], step)], steps + [step])
  {
    var states', steps' := states + [Apply(e, states[|steps|], step)], steps + [step];
    forall i | 0 <= i < |steps'|
      ensures Enabled(e, states'[i], steps'[i]) && states'[i + 1] == Apply(e, states'[i], steps'[i])
    {
      if i < |steps| { assert steps'[i] == steps[i]; }
    }
  }

  ghost predicate OneDocument(s: World, state: IndexState, workers: map<WorkerId, Worker>) {
    && s.docs == map[7 := NewDocument(ONE_CHUNK, A_BODY)]
    && s.config == Config("fp", "fp", state, None, 0) && s.pending == 0
    && s.workers == workers
  }

  const DOCS := map[7 := NewDocument(ONE_CHUNK, A_BODY)]

  lemma StartFirst() returns (states: seq<World>, steps: seq<Step>)
    ensures IsRun(ONE_CHUNK, states, steps)
    ensures OneDocument(states[|steps|], Rebuilding, map[1 := Worker("fp", Started, false)])
  {
    states, steps := [FRESH], [];
    states, steps := Extend(states, steps, Create(7, A_BODY));
    states, steps := Extend(states, steps, Start(1, false));
  }

  /** A started worker takes its snapshot and empties the store. */
  lemma SnapAndReset(states: seq<World>, steps: seq<Step>, w: WorkerId, workers: map<WorkerId, Worker>)
    returns (states': seq<World>, steps': seq<Step>)
    requires IsRun(ONE_CHUNK, states, steps) && OneDocument(states[|steps|], Rebuilding, workers)
    requires w in workers && workers[w].phase.Started?
    ensures IsRun(ONE_CHUNK, states', steps')
    ensures OneDocument(states'[|steps'|], Rebuilding,
                        workers[w := workers[w].(phase := Loading(DOCS, [7], 0))])
    ensures states'[|steps'|].store == map[]
  {
    OneChunkPrepared(DOCS);
    assert Approved(DOCS) == DOCS;
    states', steps' := Extend(states, steps, Snapshot(w, [7]));
    states', steps' := Extend(states', steps', Reset(w));
    assert states'[|steps'|].workers == workers[w := workers[w].(phase := Loading(DOCS, [7], 0))];
  }

  lemma StartMarksBoth(s: World, first: Worker)
    requires s.workers == map[1 := first] && s.config == Config("fp", "fp", Rebuilding, None, 0)
    ensures DoStart(s, 2, false).workers
         == map[1 := first.(overlapped := true), 2 := Worker("fp", Started, true)]
    ensures DoStart(s, 2, false).config == s.config
  {
    assert 1 in s.workers;
    assert Overlapped(s.workers) == map[1 := first.(overlapped := true)];
  }

  /** One document; worker 1 has loaded its only chunk when worker 2 starts, takes the
      same snapshot and empties the store. */
  lemma TwoOverlappingWorkers() returns (states: seq<World>, steps: seq<Step>)
    ensures IsRun(ONE_CHUNK, states, steps)
    ensures OneDocument(states[|steps|], Rebuilding,
                        map[1 := Worker("fp", Loading(DOCS, [7], 1), true),
                            2 := Worker("fp", Loading(DOCS, [7], 0), true)])
    ensures states[|steps|].store == map[]
  {
    OneChunkPrepared(DOCS);
    states, steps := StartFirst();
    states, steps := SnapAndReset(states, steps, 1, map[1 := Worker("fp", Started, false)]);
    states, steps := Extend(states, steps, LoadSome(1, 1));
    var loaded := Worker("fp", Loading(DOCS, [7], 1), false);
    assert states[|steps|].workers == map[1 := loaded];
    StartMarksBoth(states[|steps|], loaded);
    states, steps := Extend(states, steps, Start(2, false));
    var two := map[1 := loaded.(overlapped := true), 2 := Worker("fp", Started, true)];
    states, steps := SnapAndReset(states, steps, 2, two);
  }

  lemma Extend(states: seq<World>, steps: seq<Step>, step: Step) returns (states': seq<World>, steps': seq<Step>)
    requires IsRun(ONE_CHUNK, states, steps) && Enabled(ONE_CHUNK, states[|steps|], step)
    ensures IsRun(ONE_CHUNK, states', steps')
    ensures states'[|steps'|] == Apply(ONE_CHUNK, states[|steps|], step)
  {
    ExtendRun(ONE_CHUNK, states, steps, step);
    assert |states| == |steps| + 1;
    states', steps' := states + [Apply(ONE_CHUNK, states[|steps|], step)], steps + [step];
  }

  /** `ready`, nothing queued, but a rebuild still running: the index may be empty. */
  lemma ReadyWhileRunningMayMissChunks() returns (states: seq<World>, steps: seq<Step>)
    ensures IsRun(ONE_CHUNK, states, steps)
    ensures var s := states[|steps|];
            && s.config.indexState == Ready && s.pending == 0 && s.workers != map[]
            && s.store == map[] && !Exact(ONE_CHUNK, s.docs, s.store)
  {
    states, steps := TwoOverlappingWorkers();
    OneChunkPrepared(DOCS);
    states, steps := Extend(states, steps, Finish(1));
    assert 2 in states[|steps|].workers;
    assert IsCurrentKey(ONE_CHUNK, states[|steps|].docs, Key(7, 1, 0));
  }

  /** `ready`, nothing running, but a request queued: the index may be empty. */
  lemma ReadyWhilePendingMayMissChunks() returns (states: seq<World>, steps: seq<Step>)
    ensures IsRun(ONE_CHUNK, states, steps)
    ensures var s := states[|steps|];
            && s.config.indexState == Ready && s.pending == 1 && s.workers == map[]
            && s.store == map[] && !Exact(ONE_CHUNK, s.docs, s.store)
  {
    states, steps := TwoOverlappingWorkers();
    OneChunkPrepared(DOCS);
    states, steps := Extend(states, steps, Fail(2));
    states, steps := Extend(states, steps, Request);
    states, steps := Extend(states, steps, Finish(1));
    assert IsCurrentKey(ONE_CHUNK, states[|steps|].docs, Key(7, 1, 0));
  }
}

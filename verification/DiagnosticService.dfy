/**
 One controlled diagnosis, against any interleaving with cancels and lost permissions.
 */
module DiagnosticServices {
  import opened Wrappers
  import opened DiagnosticAnalyzer
  import opened DiagnosticRepository
  import opened DiagnosticCollection

  const MAX_TARGETS := 10

  datatype StartError = NoTargets | TooManyTargets | NotAuthorized | Duplicate

  // ---------------------------------------------------------------- the verdict

  function Verdict(permissionChanged: bool, cancelled: bool, success: nat, total: nat): Status {
    if permissionChanged then Interrupted
    else if cancelled then Cancelled
    else if success == total then Completed
    else if success == 0 then FailedRun
    else Partial
  }

  ghost predicate Succeeded(items: seq<Evidence>, target: int) {
    && (exists i :: i in items && i.target == target)
    && (forall i :: i in items && i.target == target ==> i.success)
  }

  ghost function SuccessCount(items: seq<Evidence>, targets: seq<int>): (n: nat)
    ensures n <= |targets|
  {
    if targets == [] then 0
    else
      var k := |targets| - 1;
      SuccessCount(items, targets[..k]) + (if Succeeded(items, targets[k]) then 1 else 0)
  }

  method TargetSucceeded(items: seq<Evidence>, target: int) returns (ok: bool)
    ensures ok <==> Succeeded(items, target)
  {
    var found, all := false, true;
    for i := 0 to |items|
      invariant found <==> exists j :: 0 <= j < i && items[j].target == target
      invariant all <==> forall j :: 0 <= j < i && items[j].target == target ==> items[j].success
    {
      if items[i].target == target {
        found, all := true, all && items[i].success;
      }
    }
    ok := found && all;
  }

  /** Of two targets, the one mentioned first comes first. */
  lemma {:induction false} DistinctInOrder(ids: seq<int>, i: nat, j: nat) returns (a: nat)
    requires i < j < |Distinct(ids)|
    ensures a < |ids| && ids[a] == Distinct(ids)[i] && forall b :: 0 <= b <= a ==> ids[b] != Distinct(ids)[j]
  {
    var n := |ids| - 1;
    var front := Distinct(ids[..n]);
    if j < |front| {
      a := DistinctInOrder(ids[..n], i, j);
    } else {
      assert front[i] in ids[..n];
      a :| 0 <= a < n && ids[..n][a] == front[i];
      assert forall b :: 0 <= b < n ==> ids[..n][b] in ids[..n];
    }
  }

  /** Removing duplicates keeps each target once, in the order of first mention. */
  function Distinct(ids: seq<int>): (r: seq<int>)
    ensures forall x :: x in r <==> x in ids
    ensures forall i, j :: 0 <= i < j < |r| ==> r[i] != r[j]
  {
    if ids == [] then []
    else
      var front := Distinct(ids[..|ids| - 1]);
      assert ids == ids[..|ids| - 1] + [ids[|ids| - 1]];
      if ids[|ids| - 1] in front then front else front + [ids[|ids| - 1]]
  }

  function Stepped(p: Progress, ok: bool, total: nat): (r: Progress)
    ensures r.target == p.target && (r.status == "running" <==> ok) && (r.status == "failed" <==> !ok)
    ensures p.completedProbes < total ==> r.completedProbes == p.completedProbes + 1
    ensures p.completedProbes >= total ==> r.completedProbes == total
  {
    p.(status := if ok then "running" else "failed",
       completedProbes := if p.completedProbes + 1 < total then p.completedProbes + 1 else total)
  }

  method Find(progress: seq<Progress>, target: int) returns (k: nat)
    ensures k <= |progress| && forall j :: 0 <= j < k ==> progress[j].target != target
    ensures k < |progress| ==> progress[k].target == target
  {
    k := 0;
    while k < |progress| && progress[k].target != target
      invariant k <= |progress|
      invariant forall j :: 0 <= j < k ==> progress[j].target != target
    {
      k := k + 1;
    }
  }

  /** A report changes the first record of its target, if there is one, and no other. */
  ghost function Reported(p: seq<Progress>, target: int, ok: bool, total: nat): (r: seq<Progress>)
    ensures |r| == |p|
  {
    if p == [] then []
    else if p[0].target == target then [Stepped(p[0], ok, total)] + p[1..]
    else [p[0]] + Reported(p[1..], target, ok, total)
  }

  lemma {:induction false} ReportedAt(p: seq<Progress>, k: nat, target: int, ok: bool, total: nat)
    requires k <= |p| && (forall j :: 0 <= j < k ==> p[j].target != target)
    requires k < |p| ==> p[k].target == target
    ensures Reported(p, target, ok, total) == if k < |p| then p[k := Stepped(p[k], ok, total)] else p
  {
    hide Stepped;
    if p == [] {
    } else if k == 0 {
      assert p[0 := Stepped(p[0], ok, total)] == [Stepped(p[0], ok, total)] + p[1..];
    } else {
      ReportedAt(p[1..], k - 1, target, ok, total);
      assert p == [p[0]] + p[1..];
      if k < |p| {
        assert p[k := Stepped(p[k], ok, total)] == [p[0]] + p[1..][k - 1 := Stepped(p[k], ok, total)];
      }
    }
  }

  ghost function AllReported(p: seq<Progress>, reports: seq<(int, bool)>, total: nat): (r: seq<Progress>)
    ensures |r| == |p|
  {
    if reports == [] then p
    else
      var last := reports[|reports| - 1];
      Reported(AllReported(p, reports[..|reports| - 1], total), last.0, last.1, total)
  }

  /** The progress after everything the probes of a run reported. */
  ghost function ProgressAfter(batch: (nat, nat) -> Batch, p: seq<Progress>, t: seq<Trace>, total: nat): (r: seq<Progress>)
    ensures |r| == |p|
  {
    if t == [] then p
    else
      var before, last := ProgressAfter(batch, p, t[..|t| - 1], total), t[|t| - 1];
      if last.Probed? then AllReported(before, batch(last.probe, last.turn).progress, total) else before
  }

  lemma ProgressNext(batch: (nat, nat) -> Batch, p: seq<Progress>, t: seq<Trace>, e: Trace, total: nat)
    ensures ProgressAfter(batch, p, t + [e], total)
         == var before := ProgressAfter(batch, p, t, total);
            if e.Probed? then AllReported(before, batch(e.probe, e.turn).progress, total) else before
  {
    assert (t + [e])[..|t|] == t;
  }

  function AtStart(targets: seq<int>): (r: seq<Progress>)
    ensures |r| == |targets| && forall k :: 0 <= k < |r| ==> r[k] == Progress(targets[k], "queued", 0)
  {
    seq(|targets|, k requires 0 <= k < |targets| => Progress(targets[k], "queued", 0))
  }

  function StoredAs(c: Collected, id: EvidenceId): Evidence {
    Evidence(id, c.target, c.alias, c.probe, c.kind, c.success, c.content, c.error, c.truncated)
  }

  ghost predicate StoredEach(items: seq<Evidence>, collected: seq<Collected>) {
    && |items| == |collected|
    && forall i :: 0 <= i < |items| ==> items[i] == StoredAs(collected[i], items[i].id)
  }

  lemma StoredNone()
    ensures StoredEach([], [])
  {
  }

  lemma StoredNext(items: seq<Evidence>, collected: seq<Collected>, i: nat, item: Evidence)
    requires i < |collected| && StoredEach(items, collected[..i]) && item == StoredAs(collected[i], item.id)
    ensures StoredEach(items + [item], collected[..i + 1])
  {
  }

  ghost function CountFor(items: seq<Evidence>, target: int): nat {
    if items == [] then 0
    else CountFor(items[..|items| - 1], target) + (if items[|items| - 1].target == target then 1 else 0)
  }

  method Tally(items: seq<Evidence>, target: int) returns (n: nat)
    ensures n == CountFor(items, target)
  {
    n := 0;
    for i := 0 to |items|
      invariant n == CountFor(items[..i], target)
    {
      assert items[..i + 1][..i] == items[..i];
      if items[i].target == target {
        n := n + 1;
      }
    }
    assert items[..|items|] == items;
  }

  ghost predicate FinalProgress(progress: seq<Progress>, targets: seq<int>, items: seq<Evidence>) {
    && |progress| == |targets|
    && forall k :: 0 <= k < |targets| ==>
         progress[k] == Progress(targets[k], if Succeeded(items, targets[k]) then "completed" else "failed",
                                 CountFor(items, targets[k]))
  }

  method Summarize(items: seq<Evidence>, targets: seq<int>) returns (success: nat, progress: seq<Progress>)
    ensures success == SuccessCount(items, targets)
    ensures FinalProgress(progress, targets, items)
  {
    hide Succeeded, CountFor;
    success, progress := 0, [];
    for k := 0 to |targets|
      invariant success == SuccessCount(items, targets[..k])
      invariant FinalProgress(progress, targets[..k], items)
    {
      assert targets[..k + 1][..k] == targets[..k];
      var ok := TargetSucceeded(items, targets[k]);
      var n := Tally(items, targets[k]);
      if ok {
        success := success + 1;
      }
      progress := progress + [Progress(targets[k], if ok then "completed" else "failed", n)];
    }
    assert targets[..|targets|] == targets;
  }

  /** The log holds this event, under the number of its place. */
  ghost predicate HasEvent(log: seq<Event>, kind: string, status: Status) {
    exists n: nat :: n < |log| && log[n] == Event(n + 1, kind, status)
  }

  lemma LastEvent(log: seq<Event>, kind: string, status: Status)
    requires log != [] && log[|log| - 1] == Event(|log|, kind, status)
    ensures HasEvent(log, kind, status)
  {
    var n := |log| - 1;
    assert log[n] == Event(n + 1, kind, status);
  }

  lemma EventStays(before: seq<Event>, after: seq<Event>, kind: string, status: Status)
    requires HasEvent(before, kind, status) && before <= after
    ensures HasEvent(after, kind, status)
  {
    var n: nat :| n < |before| && before[n] == Event(n + 1, kind, status);
    assert after[n] == Event(n + 1, kind, status);
  }

  /** How a start ends: refused, with probes that raised, or with a report. */
  datatype Outcome = Rejected(error: StartError) | Crashed | Concluded(items: seq<Evidence>)

  // ---------------------------------------------------------------- the service

  class DiagnosticRun {
    const repository: Repository
    const oracle: Oracle
    const owner: string
    const id: RunId
    const targets: seq<int>
    const probes: seq<Probe>
    const maxItem: nat
    const maxTotal: nat
    var turn: nat
    var permissionChanged: bool
    var progress: seq<Progress>
    ghost var trace: seq<Trace>
    ghost var began: nat       // the interaction with which the row came into being
    ghost var closedAt: nat    // the interaction after which the closing update was made

    constructor (repository: Repository, oracle: Oracle, owner: string, id: RunId, ids: seq<int>,
                 probes: seq<Probe>, maxItemChars: int, maxTotalChars: int)
      ensures this.repository == repository && this.oracle == oracle && this.owner == owner && this.id == id
      ensures targets == Distinct(ids) && this.probes == probes
      ensures 256 <= maxItem <= maxTotal
      ensures maxItemChars >= 256 ==> maxItem == maxItemChars
      ensures maxTotalChars >= maxItem ==> maxTotal == maxTotalChars
      ensures !permissionChanged && trace == [] && progress == [] && turn == 0
    {
      this.repository, this.oracle, this.owner, this.id := repository, oracle, owner, id;
      this.targets, this.probes := Distinct(ids), probes;
      maxItem := if maxItemChars > 256 then maxItemChars else 256;
      maxTotal := if maxTotalChars > 256 && maxTotalChars > maxItemChars then maxTotalChars
                  else if maxItemChars > 256 then maxItemChars else 256;
      turn, permissionChanged, progress := 0, false, [];
      trace, began, closedAt := [], 0, 0;
    }

    /** The run's row exists, the event log is numbered, and the flag is set if and only if
        a cancel was recorded since the row was made. */
    ghost predicate Alive()
      reads this`turn, this`began, repository`runs, repository`events
    {
      && repository.Valid()
      && id in repository.runs && repository.runs[id].owner == owner
      && repository.runs[id].targetCount == |targets|
      && began <= turn && (CancelRequested() <==> CancelIn(oracle, began, turn))
    }

    predicate CancelRequested()
      requires id in repository.runs
      reads repository`runs
    {
      repository.runs[id].cancelRequested
    }

    /** What the rest of the world and the run's own events do: the log grows, and the
        status changes if and only if a cancel is recorded. */
    twostate predicate Stable()
      requires old(Alive())
      reads this`turn, this`began, repository`runs, repository`events
    {
      && Alive() && began == old(began) && old(turn) <= turn
      && old(repository.LogOf(id)) <= repository.LogOf(id)
      && repository.runs[id].successCount == old(repository.runs[id].successCount)
      && repository.runs[id].failedCount == old(repository.runs[id].failedCount)
      && repository.runs[id].status == if CancelIn(oracle, old(turn), turn) then Cancelled
                                       else old(repository.runs[id].status)
    }

    /** The world moves between two steps of the run: a cancel may be recorded. */
    method Interact()
      requires Alive()
      modifies this`turn, repository`runs, repository`events
      ensures Stable() && turn == old(turn) + 1
      ensures repository.runs[id].progress == old(repository.runs[id].progress)
    {
      hide CancelIn, Repository.Valid, Repository.LogOf;
      CancelOne(oracle, turn);
      CancelSplit(oracle, began, turn, turn + 1);
      match oracle.interference(turn) {
        case Nothing =>
        case CancelUpdate =>
          var _ := repository.UpdateRun(owner, id, Changes(Some(Cancelled), None, None, Some(true)));
        case CancelEvent =>
          var _ := repository.AppendEvent(owner, id, "diagnostic_failed", Cancelled);
      }
      turn := turn + 1;
    }

    ghost predicate Announced(kind: string, status: Status)
      reads repository`events
    {
      HasEvent(repository.LogOf(id), kind, status)
    }

    /** One event of the run's own, after whatever happened in between. */
    method Emit(kind: string, status: Status)
      requires Alive()
      modifies this`turn, repository`runs, repository`events
      ensures Stable()
      ensures turn == old(turn) + 1
      ensures repository.runs[id].progress == old(repository.runs[id].progress)
      ensures |repository.LogOf(id)| > |old(repository.LogOf(id))| && Announced(kind, status)
    {
      hide HasEvent, CancelIn, Repository.Valid, Repository.LogOf;
      Interact();
      var _ := repository.AppendEvent(owner, id, kind, status);
      LastEvent(repository.LogOf(id), kind, status);
    }

    /** Every check so far told the truth, and the permission mark is set if and only if one
        of them found the authorization gone first. */
    ghost predicate Watched()
      reads this`turn, this`began, this`trace, this`permissionChanged
    {
      && Honest(oracle, began, trace, turn)
      && (permissionChanged <==> Lost(oracle, began, trace))
    }

    /** The poll: a recorded cancel stops the run, and so does lost permission, which is
        remembered. */
    method ShouldCancel() returns (stop: bool)
      requires Alive() && Watched()
      modifies this`turn, this`permissionChanged, this`trace, repository`runs, repository`events
      ensures Stable() && Watched()
      ensures turn == old(turn) + 1 && trace == old(trace) + [Polled(stop, turn)]
      ensures stop <==> CancelIn(oracle, began, turn) || !oracle.authorized(turn)
      ensures Stopped(trace) <==> Stopped(old(trace)) || stop
      ensures Raised(oracle, trace) <==> Raised(oracle, old(trace))
    {
      hide CancelIn, Honest, Lost, Stopped, Raised, Repository.Valid, Repository.LogOf;
      Interact();
      if CancelRequested() {
        stop := true;
      } else if !oracle.authorized(turn) {
        permissionChanged := true;
        stop := true;
      } else {
        stop := false;
      }
      TraceNext(oracle, began, trace, Polled(stop, turn), old(turn), turn);
      trace := trace + [Polled(stop, turn)];
    }

    /** One progress report: of a known target only. */
    method OnProgress(target: int, ok: bool)
      requires Alive()
      modifies this`turn, this`progress, repository`runs, repository`events
      ensures Stable()
      ensures progress == Reported(old(progress), target, ok, |probes|)
      ensures old(repository.runs[id].progress == progress) ==> repository.runs[id].progress == progress
      ensures (exists k :: 0 <= k < |old(progress)| && old(progress)[k].target == target) ==>
                && |repository.LogOf(id)| > |old(repository.LogOf(id))|
                && Announced("diagnostic_progress", Running)
    {
      hide Stepped, Reported, CancelIn, Repository.Valid, Repository.LogOf;
      CancelOne(oracle, turn);
      var k := Find(progress, target);
      ReportedAt(progress, k, target, ok, |probes|);
      if k < |progress| {
        progress := progress[k := Stepped(progress[k], ok, |probes|)];
        CancelSplit(oracle, turn, turn + 1, turn + 2);
        UpdateProgress();
        Emit("diagnostic_progress", Running);
      }
    }

    method UpdateProgress()
      requires Alive()
      modifies this`turn, repository`runs, repository`events
      ensures Stable() && turn == old(turn) + 1
      ensures repository.runs[id].progress == progress
    {
      hide CancelIn;
      Interact();
      var _ := repository.UpdateRun(owner, id, Changes(None, None, Some(progress), None));
    }

    /** What probing so far has kept: the budget is spent on exactly the stored items, and
        those are exactly the items returned. */
    ghost predicate Gathered(t: seq<Trace>, items: seq<Collected>, left: nat) {
      && left + Spent(items) == maxTotal
      && |items| == |Returned(oracle.batch, t)|
      && forall i :: 0 <= i < |items| ==> Sourced(items[i], Returned(oracle.batch, t)[i], maxTotal - Spent(items[..i]))
    }

    /** An item as returned, cut to its limits and to what the items before it left. */
    ghost predicate Sourced(c: Collected, o: Output, left: int) {
      && o.probe < |probes|
      && c.probe == probes[o.probe].id && c.kind == probes[o.probe].kind
      && |c.content| <= probes[o.probe].maxOutput && |c.content| <= left
      && FromRaw(oracle.sanitize, c, o.raw, maxItem)
      && (|c.content| == |oracle.sanitize(o.raw.output)| || |c.content| == maxItem
          || |c.content| == probes[o.probe].maxOutput || |c.content| == left)
    }

    /** One batch: what it returned joins the items, cut to the item limit, the probe's
        limit and the budget left before it. */
    method RunProbe(p: nat, items: seq<Collected>, remaining: nat) returns (all: Option<seq<Collected>>, left: nat)
      requires Alive() && Watched() && p < |probes| && Gathered(trace, items, remaining)
      modifies this`turn, this`progress, this`trace, repository`runs, repository`events
      ensures Stable() && Watched()
      ensures trace == old(trace) + [Probed(p, old(turn))]
      ensures all.Some? == oracle.batch(p, old(turn)).items.Some?
      ensures all.Some? ==> items <= all.value && Gathered(trace, all.value, left)
      ensures progress == AllReported(old(progress), oracle.batch(p, old(turn)).progress, |probes|)
      ensures oracle.batch(p, old(turn)).progress == [] ==> turn == old(turn)
      ensures Stopped(trace) <==> Stopped(old(trace))
      ensures Raised(oracle, trace) <==> Raised(oracle, old(trace)) || all.None?
    {
      hide Sourced, FromProbe, Returned, Spent, Reported, CancelIn, Honest, Lost, Stopped, Raised,
        Repository.Valid, Repository.LogOf;
      var limit := Min3(maxItem, probes[p].maxOutput, remaining);
      var batch := oracle.batch(p, turn);
      ReportAll(batch.progress);
      TraceNext(oracle, began, trace, Probed(p, old(turn)), old(turn), turn);
      trace := trace + [Probed(p, old(turn))];
      if batch.items == None {
        return None, remaining;
      }
      var more, rest := TakeItems(oracle.sanitize, probes[p], batch.items.value, limit, remaining);
      GatheredMore(items, remaining, old(trace), p, old(turn), more, rest, limit);
      return Some(items + more), rest;
    }

    method ReportAll(reports: seq<(int, bool)>)
      requires Alive()
      modifies this`turn, this`progress, repository`runs, repository`events
      ensures Stable()
      ensures progress == AllReported(old(progress), reports, |probes|)
      ensures reports == [] ==> turn == old(turn)
    {
      hide CancelIn, Reported, Repository.Valid, Repository.LogOf;
      CancelOne(oracle, turn);
      for i := 0 to |reports|
        invariant Stable()
        invariant progress == AllReported(old(progress), reports[..i], |probes|)
        invariant reports == [] ==> turn == old(turn)
      {
        assert reports[..i + 1][..i] == reports[..i];
        ghost var before := turn;
        OnProgress(reports[i].0, reports[i].1);
        CancelSplit(oracle, old(turn), before, turn);
      }
      assert reports[..|reports|] == reports;
    }

    lemma SourcedFrom(items: seq<Collected>, raw: seq<RawItem>, p: nat, limit: nat, left: nat)
      requires p < |probes| && FromProbe(oracle.sanitize, items, raw, probes[p], limit, left)
      requires limit == Min3(maxItem, probes[p].maxOutput, left)
      ensures |items| == |raw|
      ensures forall i :: 0 <= i < |raw| ==> Sourced(items[i], Outputs(p, raw)[i], left - Spent(items[..i]))
    {
      hide Spent;
      forall i | 0 <= i < |raw|
        ensures Sourced(items[i], Outputs(p, raw)[i], left - Spent(items[..i]))
      {
        assert FromRaw(oracle.sanitize, items[i], raw[i], maxItem);
        assert Fills(oracle.sanitize, items[i], raw[i], limit, left - Spent(items[..i]));
      }
    }

    lemma GatheredPolled(t: seq<Trace>, items: seq<Collected>, left: nat, poll: Trace)
      requires Gathered(t, items, left) && poll.Polled?
      ensures Gathered(t + [poll], items, left)
    {
      ReturnedPolled(oracle.batch, t, poll);
    }

    lemma GatheredMore(items: seq<Collected>, left: nat, before: seq<Trace>, p: nat, turn: nat,
                       more: seq<Collected>, rest: nat, limit: nat)
      requires p < |probes| && oracle.batch(p, turn).items.Some?
      requires Gathered(before, items, left)
      requires FromProbe(oracle.sanitize, more, oracle.batch(p, turn).items.value, probes[p], limit, left)
      requires limit == Min3(maxItem, probes[p].maxOutput, left)
      requires rest + Spent(more) == left
      ensures Gathered(before + [Probed(p, turn)], items + more, rest)
    {
      hide Sourced, FromProbe, Spent, Returned;
      ReturnedProbed(oracle.batch, before, p, turn);
      SourcedFrom(more, oracle.batch(p, turn).items.value, p, limit, left);
      SpentConcat(items, more);
      ghost var all := items + more;
      forall i | 0 <= i < |all|
        ensures Sourced(all[i], Returned(oracle.batch, before + [Probed(p, turn)])[i], maxTotal - Spent(all[..i]))
      {
        if i < |items| {
          assert all[..i] == items[..i];
        } else {
          assert all[..i] == items + more[..i - |items|];
          SpentConcat(items, more[..i - |items|]);
        }
      }
    }

    /** No batch reports progress while it runs. */
    ghost predicate Silent() {
      forall p, t :: oracle.batch(p, t).progress == []
    }

    /** All the probes under one budget, each only after a check. They end early if and only
        if a check saw a stop, the budget is spent, or a batch raised. */
    method Collect() returns (collected: Option<seq<Collected>>, left: nat)
      requires Alive() && trace == [] && !permissionChanged
      modifies this`turn, this`permissionChanged, this`progress, this`trace, repository`runs, repository`events
      ensures Stable() && Watched() && PollsFirst(trace)
      ensures progress == ProgressAfter(oracle.batch, old(progress), trace, |probes|)
      ensures collected.None? <==> Raised(oracle, trace)
      ensures collected.Some? ==> Gathered(trace, collected.value, left)
      ensures collected.Some? ==> EndsFor(trace, left)
      ensures Silent() ==> turn == old(turn) + (|trace| + 1) / 2
    {
      hide Sourced, Returned, PollsFirst, Spent, Gathered, CancelIn, Honest, Lost, Stopped, Raised, ProgressAfter,
        AllReported, Repository.Valid, Repository.LogOf;
      var items: seq<Collected> := [];
      left := maxTotal;
      NothingYet();
      NoProgress();
      var p := 0;
      while p < |probes|
        invariant p <= |probes| && |trace| == 2 * p
        invariant Stable() && Watched() && PollsFirst(trace)
        invariant !Stopped(trace) && !Raised(oracle, trace)
        invariant progress == ProgressAfter(oracle.batch, old(progress), trace, |probes|)
        invariant Gathered(trace, items, left)
        invariant Silent() ==> turn == old(turn) + p
        decreases |probes| - p
      {
        if left == 0 {
          break;
        }
        ghost var before, from := trace, turn;
        var stop := ShouldCancel();
        CancelSplit(oracle, old(turn), from, turn);
        ProgressNext(oracle.batch, old(progress), before, Polled(stop, turn), |probes|);
        GatheredPolled(before, items, left, Polled(stop, turn));
        AnotherPoll(before, Polled(stop, turn));
        if stop {
          break;
        }
        ghost var polled, when := trace, turn;
        var more, rest := RunProbe(p, items, left);
        CancelSplit(oracle, old(turn), when, turn);
        AnotherProbe(polled, p, when);
        ProgressNext(oracle.batch, old(progress), polled, Probed(p, when), |probes|);
        if more == None {
          return None, left;
        }
        items, left := more.value, rest;
        p := p + 1;
      }
      collected := Some(items);
    }

    lemma NoProgress()
      ensures ProgressAfter(oracle.batch, progress, [], |probes|) == progress
    {
    }

    lemma NothingYet()
      ensures Gathered([], [], maxTotal) && PollsFirst([])
      ensures Honest(oracle, began, [], turn) && !Lost(oracle, began, []) && !Stopped([]) && !Raised(oracle, [])
      ensures !CancelIn(oracle, turn, turn)
    {
    }

    /** Each collected item becomes evidence of the run, and an event. */
    method Store(collected: seq<Collected>) returns (items: seq<Evidence>)
      requires Alive()
      modifies this`turn, repository`runs, repository`events, repository`evidence
      ensures Stable() && turn == old(turn) + |collected|
      ensures StoredEach(items, collected) && |items| == |collected|
      ensures repository.EvidenceOf(id) == old(repository.EvidenceOf(id)) + items
    {
      hide StoredEach, StoredAs, CancelIn, HasEvent, Repository.Valid, Repository.LogOf;
      items := [];
      ghost var before := repository.EvidenceOf(id);
      StoredNone();
      CancelOne(oracle, turn);
      for i := 0 to |collected|
        invariant Stable() && turn == old(turn) + i
        invariant StoredEach(items, collected[..i]) && |items| == i
        invariant repository.EvidenceOf(id) == before + items
      {
        CancelSplit(oracle, old(turn), turn, turn + 1);
        var item := StoreOne(collected[i]);
        StoredNext(items, collected, i, item);
        assert before + (items + [item]) == (before + items) + [item];
        items := items + [item];
      }
      assert collected[..|collected|] == collected;
    }

    method StoreOne(c: Collected) returns (item: Evidence)
      requires Alive()
      modifies this`turn, repository`runs, repository`events, repository`evidence
      ensures Stable() && turn == old(turn) + 1
      ensures item == StoredAs(c, item.id) && item.id == oracle.uuid(old(turn))
      ensures repository.EvidenceOf(id) == old(repository.EvidenceOf(id)) + [item]
      ensures Announced("diagnostic_evidence", Running)
    {
      hide CancelIn, HasEvent, Repository.Valid, Repository.LogOf;
      item := StoredAs(c, oracle.uuid(turn));
      var _ := repository.AddEvidence(owner, id, item);
      Emit("diagnostic_evidence", Running);
    }

    /** The run's row since the closing update: its status is the one written, unless a
        cancel was recorded later. */
    ghost predicate Closed(status: Status, success: nat)
      requires id in repository.runs
      reads this`turn, this`closedAt, this`progress, repository`runs
    {
      var run := repository.runs[id];
      && run.progress == progress
      && run.successCount == success && run.successCount + run.failedCount == |targets|
      && closedAt <= turn
      && run.status == if CancelIn(oracle, closedAt, turn) then Cancelled else status
    }

    /** Overwrites the status, whatever it has become; then the last event. */
    method Close(kind: string, status: Status, success: nat)
      requires Alive() && success <= |targets|
      modifies this`turn, this`closedAt, repository`runs, repository`events
      ensures Alive() && began == old(began) && old(repository.LogOf(id)) <= repository.LogOf(id)
      ensures closedAt == old(turn) + 1 && turn == closedAt + 2
      ensures Closed(status, success) && Announced(kind, status)
    {
      hide CancelIn, HasEvent, Repository.Valid, Repository.LogOf;
      Overwrite(status, success);
      Emit(kind, status);
      ghost var before := repository.LogOf(id);
      CancelSplit(oracle, closedAt, turn, turn + 1);
      Interact();
      EventStays(before, repository.LogOf(id), kind, status);
    }

    method Overwrite(status: Status, success: nat)
      requires Alive() && success <= |targets|
      modifies this`turn, this`closedAt, repository`runs, repository`events
      ensures Alive() && began == old(began) && old(repository.LogOf(id)) <= repository.LogOf(id)
      ensures turn == old(turn) + 1 && closedAt == turn
      ensures repository.runs[id].status == status
      ensures repository.runs[id].progress == progress
      ensures repository.runs[id].successCount == success && repository.runs[id].failedCount == |targets| - success
    {
      hide CancelIn, Repository.LogOf;
      Interact();
      var _ := repository.UpdateRun(owner, id,
                                    Changes(Some(status), Some((success, |targets| - success)), Some(progress), None));
      closedAt := turn;
    }

    /** How the run ended, when a batch raised. */
    ghost predicate HasCrashed()
      requires id in repository.runs
      reads this, repository
    {
      && Raised(oracle, trace) && PollsFirst(trace) && Honest(oracle, began, trace, turn)
      && Closed(FailedRun, 0) && Announced("diagnostic_failed", FailedRun)
      && |progress| == |targets|
      && (forall k :: 0 <= k < |targets| ==>
            progress[k] == ProgressAfter(oracle.batch, AtStart(targets), trace, |probes|)[k].(status := "failed"))
      && id in repository.reports && repository.reports[id] == Report([], Warning, true)
    }

    /** After all probes, one more check. */
    ghost predicate Checked()
      reads this`trace, this`began
    {
      && trace != [] && PollsFirst(trace[..|trace| - 1]) && trace[|trace| - 1].Polled?
      && began <= trace[|trace| - 1].turn
      && Honest(oracle, began, trace, trace[|trace| - 1].turn)
      && !Raised(oracle, trace)
    }

    /** The status that the evidence and the checks call for. */
    ghost function Called(items: seq<Evidence>): Status
      requires trace != [] && trace[|trace| - 1].Polled?
      reads this`trace, this`began
    {
      Verdict(Lost(oracle, began, trace), trace[|trace| - 1].stop, SuccessCount(items, targets), |targets|)
    }

    /** How the run ended, with this evidence. One interaction lies between the last check
        and the closing update. */
    ghost predicate HasConcluded(items: seq<Evidence>)
      requires id in repository.runs
      reads this, repository
    {
      && Checked() && closedAt == trace[|trace| - 1].turn + 1
      && Decided(Called(items), items)
      && FinalProgress(progress, targets, items)
      && id in repository.reports
      && repository.reports[id].findings == FindingsOf(oracle.signals, items, items)
      && IsSeverityOf(repository.reports[id].severity, repository.reports[id].findings)
      && (repository.reports[id].insufficient <==> forall i :: 0 <= i < |items| ==> !items[i].success)
    }

    /** The stored evidence is what the probes returned, cut to fit the budget; they ended
        early only because of a check or because the budget was spent. */
    ghost predicate KeepsEvidence(items: seq<Evidence>)
      reads this`trace
    {
      exists collected, left :: Gathered(trace, collected, left) && StoredEach(items, collected)
                                && (trace != [] ==> EndsFor(trace[..|trace| - 1], left))
    }

    /** An item of evidence, written out from the output of its probe and what the items
        before it left of the budget: no text is longer than allowed, and none is shorter. */
    ghost predicate EvidenceOf(item: Evidence, o: Output, left: int) {
      var text := oracle.sanitize(o.raw.output);
      && item.target == o.raw.host && item.alias == o.raw.alias && item.success == o.raw.success
      && o.probe < |probes| && item.probe == probes[o.probe].id && item.kind == probes[o.probe].kind
      && item.content <= text && |item.content| <= maxItem && |item.content| <= probes[o.probe].maxOutput
      && |item.content| <= left
      && (|item.content| == |text| || |item.content| == maxItem || |item.content| == probes[o.probe].maxOutput
          || |item.content| == left)
      && (item.truncated <==> o.raw.truncated || item.content != text)
      && item.error <= oracle.sanitize(o.raw.error) && |item.error| <= 2048
    }

    /** The evidence is every item the probes returned, in order. */
    ghost predicate FromProbes(items: seq<Evidence>)
      reads this`trace
    {
      var outputs := Returned(oracle.batch, trace);
      && |items| == |outputs|
      && forall i :: 0 <= i < |items| ==> EvidenceOf(items[i], outputs[i], maxTotal - Length(items[..i]))
    }

    lemma KeptFromProbes(items: seq<Evidence>, collected: seq<Collected>, left: nat)
      requires Gathered(trace, collected, left) && StoredEach(items, collected)
      ensures FromProbes(items)
    {
      hide Returned, Spent, Length;
      forall i | 0 <= i < |items|
        ensures EvidenceOf(items[i], Returned(oracle.batch, trace)[i], maxTotal - Length(items[..i]))
      {
        assert items[i] == StoredAs(collected[i], items[i].id);
        assert Sourced(collected[i], Returned(oracle.batch, trace)[i], maxTotal - Spent(collected[..i]));
        SameLength(items[..i], collected[..i]);
      }
    }

    lemma KeptBy(items: seq<Evidence>, collected: seq<Collected>, left: nat)
      requires Gathered(trace, collected, left) && StoredEach(items, collected)
      requires trace != [] ==> EndsFor(trace[..|trace| - 1], left)
      ensures KeepsEvidence(items)
    {
    }

    ghost predicate EndsFor(probing: seq<Trace>, left: nat) {
      && (Stopped(probing) || left == 0 || |probing| == 2 * |probes|)
      && |probing| <= 2 * |probes|
    }

    /** The guard against foreign citations never raises. */
    method SaveFindings(items: seq<Evidence>)
      requires Alive()
      modifies repository`reports
      ensures id in repository.reports
      ensures repository.reports[id].findings == FindingsOf(oracle.signals, items, items)
      ensures IsSeverityOf(repository.reports[id].severity, repository.reports[id].findings)
      ensures repository.reports[id].insufficient <==> forall i :: 0 <= i < |items| ==> !items[i].success
    {
      hide FindingsOf, CitationsHold, IsSeverityOf, Repository.Valid;
      var report := Analyze(oracle.signals, items);
      CitationsAlwaysHold(oracle.signals, items);
      if !CitationsHold(report.findings, items) {
        assert false;
      }
      var _ := repository.SaveReport(owner, id, report);
    }

    /** The last check. */
    method FinalCheck(ghost collected: seq<Collected>, ghost left: nat) returns (stop: bool)
      requires Alive() && Watched() && PollsFirst(trace) && !Raised(oracle, trace)
      requires Gathered(trace, collected, left)
      modifies this`turn, this`permissionChanged, this`trace, repository`runs, repository`events
      ensures Stable() && turn == old(turn) + 1 && trace == old(trace) + [Polled(stop, turn)]
      ensures Checked() && Gathered(trace, collected, left)
      ensures permissionChanged <==> Lost(oracle, began, trace)
    {
      hide PollsFirst, Gathered, CancelIn, Honest, Lost, Stopped, Raised, Repository.Valid, Repository.LogOf;
      stop := ShouldCancel();
      GatheredPolled(old(trace), collected, left, Polled(stop, turn));
      assert trace[..|trace| - 1] == old(trace);
    }

    /** The row is closed with this verdict, and the last event says so. */
    ghost predicate Decided(verdict: Status, items: seq<Evidence>)
      requires id in repository.runs
      reads this`turn, this`closedAt, this`progress, repository`runs, repository`events
    {
      && Closed(verdict, SuccessCount(items, targets))
      && Announced(if verdict.Completed? || verdict.Partial? then "diagnostic_completed" else "diagnostic_failed",
                   verdict)
    }

    /** Counts and status from the evidence and the last check. */
    method Judge(items: seq<Evidence>, stop: bool)
      requires Alive()
      modifies this`turn, this`progress, this`closedAt, repository`runs, repository`events
      ensures Alive() && began == old(began) && old(repository.LogOf(id)) <= repository.LogOf(id)
      ensures closedAt == old(turn) + 1 && turn == closedAt + 2
      ensures FinalProgress(progress, targets, items)
      ensures Decided(Verdict(permissionChanged, stop, SuccessCount(items, targets), |targets|), items)
    {
      hide Succeeded, FinalProgress, CancelIn, HasEvent, Repository.Valid, Repository.LogOf, Verdict;
      var success, final := Summarize(items, targets);
      progress := final;
      var status := Verdict(permissionChanged, stop, success, |targets|);
      Close(if status.Completed? || status.Partial? then "diagnostic_completed" else "diagnostic_failed",
            status, success);
    }

    method Conclude(collected: seq<Collected>, ghost left: nat) returns (items: seq<Evidence>)
      requires Alive() && Watched() && PollsFirst(trace) && !Raised(oracle, trace)
      requires Gathered(trace, collected, left) && EndsFor(trace, left)
      modifies this`turn, this`permissionChanged, this`progress, this`trace, this`closedAt,
               repository`runs, repository`events, repository`evidence, repository`reports
      ensures Alive() && began == old(began) && old(repository.LogOf(id)) <= repository.LogOf(id)
      ensures HasConcluded(items) && KeepsEvidence(items) && FromProbes(items)
      ensures |trace| == |old(trace)| + 1 && trace[|trace| - 1].turn == old(turn) + |items| + 1
      ensures repository.EvidenceOf(id) == old(repository.EvidenceOf(id)) + items
    {
      hide Decided, PollsFirst, Gathered, Succeeded, SuccessCount, FinalProgress, FindingsOf, CitationsHold,
        IsSeverityOf, Repository.Valid, Repository.LogOf, Verdict, CancelIn, Honest, Lost, Stopped, Raised, StoredEach,
        EndsFor, KeepsEvidence, FromProbes;
      items := Store(collected);
      HonestLater(oracle, began, trace, old(turn), turn);
      var stop := FinalCheck(collected, left);
      SaveFindings(items);
      assert trace[..|trace| - 1] == old(trace);
      KeptBy(items, collected, left);
      KeptFromProbes(items, collected, left);
      Judge(items, stop);
    }

    /** The exception handler: every target failed, whatever its probes had reported. */
    method Crash()
      requires Alive() && Watched() && PollsFirst(trace) && Raised(oracle, trace)
      requires progress == ProgressAfter(oracle.batch, AtStart(targets), trace, |probes|)
      modifies this`turn, this`progress, this`closedAt, repository`runs, repository`events, repository`reports
      ensures Alive() && began == old(began) && old(repository.LogOf(id)) <= repository.LogOf(id)
      ensures HasCrashed()
      ensures |progress| == |old(progress)|
      ensures forall k :: 0 <= k < |progress| ==> progress[k] == old(progress[k]).(status := "failed")
    {
      hide CancelIn, Raised, HasEvent, PollsFirst, Honest, Lost, Repository.Valid, Repository.LogOf;
      HonestLater(oracle, began, trace, turn, turn + 3);
      var failed := progress;
      for k := 0 to |failed|
        invariant |failed| == |progress|
        invariant forall j :: 0 <= j < k ==> failed[j] == progress[j].(status := "failed")
        invariant forall j :: k <= j < |failed| ==> failed[j] == progress[j]
      {
        failed := failed[k := failed[k].(status := "failed")];
      }
      progress := failed;
      var _ := repository.SaveReport(owner, id, Report([], Warning, true));
      Close("diagnostic_failed", FailedRun, 0);
    }

    /** The request is refused before anything is stored. */
    method Admit() returns (r: Option<StartError>)
      ensures r == if targets == [] then Some(NoTargets)
                   else if |targets| > 10 then Some(TooManyTargets)
                   else if !oracle.authorized(turn) then Some(NotAuthorized)
                   else if id in repository.runs then Some(Duplicate)
                   else None
    {
      if targets == [] {
        return Some(NoTargets);
      }
      if |targets| > MAX_TARGETS {
        return Some(TooManyTargets);
      }
      if !oracle.authorized(turn) {
        return Some(NotAuthorized);
      }
      return if id in repository.runs then Some(Duplicate) else None;
    }

    method Open()
      requires repository.Valid() && id !in repository.runs
      modifies this`turn, this`began, this`progress, repository`runs, repository`events
      ensures Alive() && progress == AtStart(targets) && Announced("diagnostic_started", Running)
      ensures began == old(turn) && turn == began + 2
      ensures repository.runs[id].status == if CancelIn(oracle, began + 1, turn) then Cancelled else Running
    {
      hide CancelIn, HasEvent, Repository.Valid, Repository.LogOf;
      progress := AtStart(targets);
      began := turn;
      CancelOne(oracle, turn);
      var _ := repository.CreateRun(id, Run(owner, Queued, |targets|, 0, 0, progress, 0, false));
      SetRunning();
      Emit("diagnostic_started", Running);
    }

    method SetRunning()
      requires Alive()
      modifies this`turn, repository`runs, repository`events
      ensures Alive() && turn == old(turn) + 1 && repository.runs[id].status == Running
    {
      hide CancelIn;
      Interact();
      var _ := repository.UpdateRun(owner, id, Changes(Some(Running), None, None, None));
    }

    /** A whole diagnosis, against any interference. */
    method Start() returns (outcome: Outcome)
      requires repository.Valid() && trace == [] && !permissionChanged
      modifies this, repository
      ensures outcome.Rejected? <==> targets == [] || |targets| > 10 || !oracle.authorized(old(turn))
                                     || id in old(repository.runs)
      ensures outcome.Rejected? ==>
                && repository.runs == old(repository.runs) && repository.events == old(repository.events)
                && repository.evidence == old(repository.evidence) && repository.reports == old(repository.reports)
      ensures !outcome.Rejected? ==>
                && Alive() && began == old(turn)
                && (outcome.Crashed? <==> Raised(oracle, trace))
      ensures outcome.Crashed? ==> HasCrashed()
      ensures outcome.Concluded? ==>
                && HasConcluded(outcome.items) && KeepsEvidence(outcome.items) && FromProbes(outcome.items)
                && repository.EvidenceOf(id) == old(repository.EvidenceOf(id)) + outcome.items
      ensures outcome.Concluded? && Silent() ==>
                trace[|trace| - 1].turn == began + 2 + |trace| / 2 + |outcome.items| + 1
    {
      hide PollsFirst, Gathered, KeepsEvidence, FromProbes, CancelIn, Honest, Lost, Raised, Decided, Silent, EndsFor,
        ProgressAfter, Closed, HasEvent, FinalProgress, FindingsOf, IsSeverityOf, Repository.Valid, Repository.LogOf;
      var refused := Admit();
      if refused.Some? {
        return Rejected(refused.value);
      }
      Open();
      var collected, left := Collect();
      if collected == None {
        Crash();
        return Crashed;
      }
      var items := Conclude(collected.value, left);
      return Concluded(items);
    }

    // -------------------------------------------------------------- what an ended run says

    /** The last check of a concluded run happened at this moment. */
    ghost function LastCheck(): nat
      requires trace != []
      reads this`trace
    {
      trace[|trace| - 1].turn
    }

    /** Some check, the last one included, found the authorization gone. */
    ghost predicate Unauthorized()
      reads this`trace
    {
      exists i :: 0 <= i < |trace| && trace[i].Polled? && !oracle.authorized(trace[i].turn)
    }

    lemma StopMeans()
      requires Checked()
      ensures Lost(oracle, began, trace) || trace[|trace| - 1].stop
              <==> CancelIn(oracle, began, LastCheck()) || Unauthorized()
      ensures !Lost(oracle, began, trace) ==>
                (trace[|trace| - 1].stop <==> CancelIn(oracle, began, LastCheck()))
    {
      hide PollsFirst, CancelIn, Raised;
      var last := trace[|trace| - 1];
      assert Tells(oracle, began, last);
      assert !last.stop || CancelIn(oracle, began, last.turn) || SeesLoss(oracle, began, last);
      if Unauthorized() && !CancelIn(oracle, began, last.turn) {
        var i :| 0 <= i < |trace| && trace[i].Polled? && !oracle.authorized(trace[i].turn);
        assert Tells(oracle, began, trace[i]);
        NoEarlierCancel(trace[i].turn, last.turn);
        assert SeesLoss(oracle, began, trace[i]);
      }
    }

    lemma NoEarlierCancel(t: nat, later: nat)
      requires t <= later && !CancelIn(oracle, began, later)
      ensures !CancelIn(oracle, began, t)
    {
    }

    /** The status of a concluded run, for every interference: a cancel after the closing
        update wins; else lost permission; else a cancel before the last check; else the
        targets decide. Every target is counted once. */
    lemma EndOfRun(items: seq<Evidence>)
      requires Alive() && targets != [] && HasConcluded(items)
      ensures var run := repository.runs[id];
              && IsTerminal(run.status)
              && run.successCount == SuccessCount(items, targets)
              && run.successCount + run.failedCount == |targets|
              && run.status == if CancelIn(oracle, closedAt, turn) then Cancelled
                               else if Lost(oracle, began, trace) then Interrupted
                               else if CancelIn(oracle, began, LastCheck()) then Cancelled
                               else if SuccessCount(items, targets) == |targets| then Completed
                               else if SuccessCount(items, targets) == 0 then FailedRun
                               else Partial
    {
      hide CancelIn, FinalProgress, FindingsOf, IsSeverityOf, SuccessCount, Lost, HasEvent, Repository.Valid;
      StopMeans();
    }

    /** A cancel recorded, or an authorization found missing, at or before the last check:
        then the run reports no result, and nothing is probed after the first such check. */
    lemma StoppedRunReportsNothing(items: seq<Evidence>)
      requires Alive() && targets != [] && HasConcluded(items)
      requires CancelIn(oracle, began, LastCheck()) || Unauthorized()
      ensures !repository.runs[id].status.Completed? && !repository.runs[id].status.Partial?
    {
      hide CancelIn, FinalProgress, FindingsOf, IsSeverityOf, SuccessCount, Lost, HasEvent, Repository.Valid;
      StopMeans();
    }

    /** Some item of a target was returned, and every item of it succeeded. */
    ghost predicate AllSucceeded(target: int)
      reads this`trace
    {
      var outputs := Returned(oracle.batch, trace);
      && (exists i :: 0 <= i < |outputs| && outputs[i].raw.host == target)
      && (forall i :: 0 <= i < |outputs| && outputs[i].raw.host == target ==> outputs[i].raw.success)
    }

    lemma SameOutcome(items: seq<Evidence>)
      requires FromProbes(items)
      ensures var outputs := Returned(oracle.batch, trace);
              && |items| == |outputs|
              && forall i :: 0 <= i < |items| ==>
                   items[i].target == outputs[i].raw.host && items[i].success == outputs[i].raw.success
    {
      hide Returned, Length;
    }

    lemma SucceededMeans(items: seq<Evidence>, target: int)
      requires FromProbes(items)
      ensures Succeeded(items, target) <==> AllSucceeded(target)
    {
      hide Returned, FromProbes;
      SameOutcome(items);
      var outputs := Returned(oracle.batch, trace);
      assert forall i :: 0 <= i < |items| ==> items[i] in items;
      if AllSucceeded(target) {
        var i :| 0 <= i < |outputs| && outputs[i].raw.host == target;
        assert items[i].target == target;
      }
      if Succeeded(items, target) {
        var item :| item in items && item.target == target;
        var i :| 0 <= i < |items| && items[i] == item;
        assert outputs[i].raw.host == target;
      }
    }

    /** What the probes returned decides a run that nobody stopped: completed if and only if
        every target has items and all of them succeeded, failed if and only if no target
        does. */
    lemma ResultMeans(items: seq<Evidence>)
      requires Alive() && targets != [] && HasConcluded(items) && FromProbes(items)
      requires !CancelIn(oracle, began, turn) && !Unauthorized()
      ensures var status := repository.runs[id].status;
              && (status == Completed <==> forall t :: t in targets ==> AllSucceeded(t))
              && (status == FailedRun <==> forall t :: t in targets ==> !AllSucceeded(t))
    {
      hide CancelIn, FinalProgress, FindingsOf, IsSeverityOf, SuccessCount, Lost, HasEvent, Repository.Valid, AllSucceeded,
        Succeeded, Honest, Raised, PollsFirst, FromProbes, Verdict;
      EndOfRun(items);
      StopMeans();
      CancelSplit(oracle, began, LastCheck(), turn);
      CancelSplit(oracle, began, closedAt, turn);
      CountMeans(items, targets);
      forall t | t in targets
        ensures Succeeded(items, t) <==> AllSucceeded(t)
      {
        SucceededMeans(items, t);
      }
    }

    lemma {:induction false} CountMeans(items: seq<Evidence>, ts: seq<int>)
      ensures SuccessCount(items, ts) == |ts| <==> forall k :: 0 <= k < |ts| ==> Succeeded(items, ts[k])
      ensures SuccessCount(items, ts) == 0 <==> forall k :: 0 <= k < |ts| ==> !Succeeded(items, ts[k])
    {
      hide Succeeded;
      if ts != [] {
        var n := |ts| - 1;
        CountMeans(items, ts[..n]);
        if Succeeded(items, ts[n]) {
          assert SuccessCount(items, ts) == SuccessCount(items, ts[..n]) + 1;
        } else {
          assert SuccessCount(items, ts) == SuccessCount(items, ts[..n]);
        }
      }
    }

    /** However a run went, one that ends completed had items of every target, and all of them
        succeeded. */
    lemma CompletedMeans(items: seq<Evidence>)
      requires Alive() && targets != [] && HasConcluded(items) && FromProbes(items)
      requires repository.runs[id].status == Completed
      ensures forall t :: t in targets ==> AllSucceeded(t)
    {
      hide CancelIn, FinalProgress, FindingsOf, IsSeverityOf, SuccessCount, Lost, HasEvent, Repository.Valid, AllSucceeded,
        Succeeded, Honest, Raised, PollsFirst, FromProbes, Verdict;
      EndOfRun(items);
      CountMeans(items, targets);
      forall t | t in targets
        ensures AllSucceeded(t)
      {
        SucceededMeans(items, t);
      }
    }

    /** Nothing is probed after a check that comes after a recorded cancel, or finds the
        authorization gone. */
    lemma StopIsFinal(i: nat, j: nat)
      requires Checked() || (id in repository.runs && HasCrashed())
      requires i < |trace| && trace[i].Polled? && j < |trace| && trace[j].Probed?
      requires CancelIn(oracle, began, trace[i].turn) || !oracle.authorized(trace[i].turn)
      ensures j < i
    {
      hide CancelIn;
      assert Tells(oracle, began, trace[i]);
      if PollsFirst(trace) {
        NothingAfterStop(trace, i);
      } else if i < |trace| - 1 {
        NothingAfterStop(trace[..|trace| - 1], i);
      }
    }

    /** When a recorded cancel leaves no mark on the status: no check saw a reason to stop,
        a cancel came between the last check and the closing update, and none came later. */
    lemma CancelIsIgnored(items: seq<Evidence>)
      requires Alive() && targets != [] && HasConcluded(items)
      ensures CancelRequested() && !repository.runs[id].status.Cancelled? && !repository.runs[id].status.Interrupted?
              <==> && !CancelIn(oracle, began, LastCheck()) && !Unauthorized()
                   && oracle.interference(LastCheck()) == CancelUpdate
                   && !CancelIn(oracle, closedAt, turn)
    {
      hide CancelIn, FinalProgress, FindingsOf, IsSeverityOf, SuccessCount, Lost, HasEvent, Repository.Valid, PollsFirst,
        Honest, Raised;
      StopMeans();
      CancelOne(oracle, LastCheck());
      CancelSplit(oracle, began, LastCheck(), turn);
      CancelSplit(oracle, LastCheck(), closedAt, turn);
    }

    /** The written status stays if and only if no cancel is recorded after it, or it says
        cancelled itself. */
    lemma VerdictStays(items: seq<Evidence>)
      requires Alive() && HasConcluded(items)
      ensures repository.runs[id].status == Called(items)
              <==> Called(items).Cancelled? || !CancelIn(oracle, closedAt, turn)
    {
      hide CancelIn, FinalProgress, FindingsOf, IsSeverityOf, SuccessCount, Lost, HasEvent, Repository.Valid, Called,
        PollsFirst, Honest, Raised;
    }

    /** Over all probes and targets, no more text is kept than the budget allows. */
    lemma EvidenceFits(items: seq<Evidence>)
      requires KeepsEvidence(items)
      ensures Length(items) <= maxTotal
    {
      hide Gathered, StoredEach, EndsFor;
      var collected, left :| Gathered(trace, collected, left) && StoredEach(items, collected)
                             && (trace != [] ==> EndsFor(trace[..|trace| - 1], left));
      GatheredFits(collected, left);
      SameLength(items, collected);
    }

    lemma GatheredFits(collected: seq<Collected>, left: nat)
      requires Gathered(trace, collected, left)
      ensures left + Spent(collected) == maxTotal
    {
    }
  }

  ghost function Length(items: seq<Evidence>): nat {
    if items == [] then 0 else Length(items[..|items| - 1]) + |items[|items| - 1].content|
  }

  lemma {:induction false} SameLength(items: seq<Evidence>, collected: seq<Collected>)
    requires StoredEach(items, collected)
    ensures Length(items) == Spent(collected)
  {
    if items != [] {
      var n := |items| - 1;
      assert items[n] == StoredAs(collected[n], items[n].id);
      SameLength(items[..n], collected[..n]);
    }
  }

  // ---------------------------------------------------------------- a cancel that is overwritten

  const NO_SIGNALS := Signals(s => None, s => None, s => None, s => None, s => 0, s => false, s => 0, s => 0,
                              s => 0, s => 0, s => true)

  const AN_ITEM := RawItem(1, "web", true, "", "", false)

  /** One target, one probe, one item; a cancel is recorded right after the last check. */
  const LATE_CANCEL :=
    Oracle(t => if t == 5 then CancelUpdate else Nothing, t => true, (p, t) => Batch([], Some([AN_ITEM])),
           t => "evidence", NO_SIGNALS, s => s)

  ghost predicate IsScenario(run: DiagnosticRun)
    reads run
  {
    && run.oracle == LATE_CANCEL && run.targets == [1] && run.probes == [Probe("disk", "disk", 1024)]
    && run.maxTotal == 256 && run.began == 0
  }

  lemma {:induction false} FewReturned(t: seq<Trace>)
    requires PollsFirst(t)
    ensures |Returned(LATE_CANCEL.batch, t)| == |t| / 2
  {
    if t != [] {
      var n := |t| - 1;
      forall i | 0 <= i < n ensures InTurn(t[..n], i) {
        assert InTurn(t, i);
      }
      FewReturned(t[..n]);
      assert InTurn(t, n);
    }
  }

  /** Nothing is kept of empty output. */
  lemma ScenarioItems(run: DiagnosticRun, collected: seq<Collected>, left: nat)
    requires IsScenario(run) && run.Checked() && run.Gathered(run.trace, collected, left)
    ensures left == 256 && |collected| == (|run.trace| - 1) / 2
    ensures forall i :: 0 <= i < |collected| ==> collected[i].target == 1 && collected[i].success
  {
    var front, last := run.trace[..|run.trace| - 1], run.trace[|run.trace| - 1];
    assert run.trace == front + [last];
    ReturnedPolled(LATE_CANCEL.batch, front, last);
    FewReturned(front);
    AllReturned(run.trace);
    forall i | 0 <= i < |collected|
      ensures collected[i].target == 1 && collected[i].success && collected[i].content == ""
    {
      assert run.Sourced(collected[i], Returned(run.oracle.batch, run.trace)[i], 256 - Spent(collected[..i]));
      assert Returned(run.oracle.batch, run.trace)[i] in Returned(run.oracle.batch, run.trace);
    }
    SpentEmpty(collected);
  }

  lemma {:induction false} AllReturned(t: seq<Trace>)
    ensures forall o :: o in Returned(LATE_CANCEL.batch, t) ==> o.raw == AN_ITEM
  {
    if t != [] {
      AllReturned(t[..|t| - 1]);
    }
  }

  lemma {:induction false} SpentEmpty(items: seq<Collected>)
    requires forall i :: 0 <= i < |items| ==> items[i].content == ""
    ensures Spent(items) == 0
  {
    if items != [] {
      SpentEmpty(items[..|items| - 1]);
    }
  }

  /** The run is checked for the last time after five interactions, and nothing stopped it. */
  lemma Scenario(run: DiagnosticRun, items: seq<Evidence>)
    requires IsScenario(run) && run.Checked() && run.KeepsEvidence(items)
    requires run.LastCheck() == 3 + |run.trace| / 2 + |items|
    ensures run.LastCheck() == 5
    ensures !run.Unauthorized()
    ensures |items| == 1 && items[0].target == 1 && items[0].success
  {
    hide DiagnosticRun.Gathered;
    var front := run.trace[..|run.trace| - 1];
    var collected, left :| run.Gathered(run.trace, collected, left) && StoredEach(items, collected)
                           && run.EndsFor(front, left);
    ScenarioItems(run, collected, left);
    FewReturned(front);
    forall i | 0 <= i < |front| && front[i].Polled?
      ensures !front[i].stop
    {
      assert Tells(run.oracle, 0, run.trace[i]);
    }
  }

  lemma OneSuccess(items: seq<Evidence>)
    requires |items| == 1 && items[0].target == 1 && items[0].success
    ensures SuccessCount(items, [1]) == 1
  {
    assert [1][..0] == [];
    assert items[0] in items;
  }

  lemma ScenarioCompletes(run: DiagnosticRun, items: seq<Evidence>)
    requires IsScenario(run) && run.Alive() && run.HasConcluded(items) && run.KeepsEvidence(items)
    requires run.LastCheck() == 3 + |run.trace| / 2 + |items|
    ensures run.CancelRequested() && run.repository.runs[run.id].status == Completed
  {
    hide FinalProgress, FindingsOf, IsSeverityOf, HasEvent, SuccessCount, Repository.Valid, PollsFirst, StoredEach;
    Scenario(run, items);
    OneSuccess(items);
    run.EndOfRun(items);
    assert run.oracle.interference(5) == CancelUpdate;
  }

  method Prepare() returns (run: DiagnosticRun)
    ensures fresh(run) && fresh(run.repository) && IsFresh(run)
  {
    var repository := new Repository();
    run := new DiagnosticRun(repository, LATE_CANCEL, "ops", 1, [1], [Probe("disk", "disk", 1024)], 256, 256);
    assert Distinct([1]) == [1];
  }

  ghost predicate IsFresh(run: DiagnosticRun)
    reads run, run.repository
  {
    && run.oracle == LATE_CANCEL && run.targets == [1] && run.probes == [Probe("disk", "disk", 1024)]
    && run.maxTotal == 256 && run.turn == 0 && run.trace == [] && !run.permissionChanged
    && run.repository.Valid() && run.repository.runs == map[]
  }

  lemma Willing(run: DiagnosticRun)
    requires run.oracle == LATE_CANCEL
    ensures run.oracle.authorized(0) && run.Silent() && forall t :: !Raised(run.oracle, t)
  {
  }

  method CancelIsOverwritten() returns (run: DiagnosticRun, outcome: Outcome)
    ensures outcome.Concluded? && run.Alive()
    ensures run.CancelRequested() && run.repository.runs[run.id].status == Completed
  {
    run := Prepare();
    hide DiagnosticRun.HasConcluded, DiagnosticRun.HasCrashed, DiagnosticRun.KeepsEvidence, DiagnosticRun.Alive,
      DiagnosticRun.Silent, Raised, Repository.Valid, Distinct, LATE_CANCEL;
    Willing(run);
    outcome := run.Start();
    ScenarioCompletes(run, outcome.items);
  }
}

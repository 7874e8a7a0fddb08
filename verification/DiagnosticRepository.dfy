/** The in-memory diagnostic repository: runs, and one append-only event log a run. */
module DiagnosticRepository {
  import opened Wrappers
  import opened DiagnosticAnalyzer

  type RunId = nat

  const PAGE := 200

  datatype Status = Queued | Running | Completed | Partial | FailedRun | Cancelled | Interrupted

  predicate IsTerminal(s: Status) {
    s.Completed? || s.Partial? || s.FailedRun? || s.Cancelled? || s.Interrupted?
  }

  datatype Progress = Progress(target: int, status: string, completedProbes: nat)

  datatype Run = Run(owner: string, status: Status, targetCount: nat, successCount: nat, failedCount: nat,
                     progress: seq<Progress>, latestEventSeq: nat, cancelRequested: bool)

  /** The columns an update names. */
  datatype Changes = Changes(status: Option<Status>, counts: Option<(nat, nat)>,
                             progress: Option<seq<Progress>>, cancelRequested: Option<bool>)

  function Merge(run: Run, c: Changes): Run {
    run.(status := if c.status.Some? then c.status.value else run.status,
         successCount := if c.counts.Some? then c.counts.value.0 else run.successCount,
         failedCount := if c.counts.Some? then c.counts.value.1 else run.failedCount,
         progress := if c.progress.Some? then c.progress.value else run.progress,
         cancelRequested := if c.cancelRequested.Some? then c.cancelRequested.value else run.cancelRequested)
  }

  datatype Event = Event(seqNo: nat, kind: string, status: Status)

  datatype RepositoryError = NotFound | Conflict

  /** The log of a run that has issued `n` numbers: exactly 1..n, in order. */
  ghost predicate Numbered(events: seq<Event>, n: nat) {
    && |events| == n
    && forall i :: 0 <= i < n ==> events[i].seqNo == i + 1
  }

  lemma NumberedNext(events: seq<Event>, n: nat, e: Event)
    requires Numbered(events, n) && e.seqNo == n + 1
    ensures Numbered(events + [e], n + 1)
  {
  }

  class Repository {
    var runs: map<RunId, Run>
    var events: map<RunId, seq<Event>>
    var evidence: map<RunId, seq<Evidence>>
    var reports: map<RunId, Report>

    ghost predicate Valid()
      reads this`runs, this`events
    {
      && (forall id :: id in events ==> id in runs)
      && (forall id :: id in runs ==> Numbered(LogOf(id), runs[id].latestEventSeq))
    }

    function LogOf(id: RunId): seq<Event>
      reads this`events
    {
      if id in events then events[id] else []
    }

    function EvidenceOf(id: RunId): seq<Evidence>
      reads this`evidence
    {
      if id in evidence then evidence[id] else []
    }

    constructor ()
      ensures Valid() && runs == map[] && events == map[] && evidence == map[] && reports == map[]
    {
      runs, events, evidence, reports := map[], map[], map[], map[];
    }

    method CreateRun(id: RunId, run: Run) returns (r: Result<Run, RepositoryError>)
      requires Valid() && run.latestEventSeq == 0
      modifies this`runs
      ensures Valid()
      ensures id in old(runs) ==> r == Failure(Conflict) && runs == old(runs)
      ensures id !in old(runs) ==> r == Success(run) && runs == old(runs)[id := run] && LogOf(id) == []
    {
      if id in runs {
        return Failure(Conflict);
      }
      runs := runs[id := run];
      return Success(run);
    }

    method GetRun(owner: string, id: RunId) returns (r: Result<Run, RepositoryError>)
      ensures r == if id in runs && runs[id].owner == owner then Success(runs[id]) else Failure(NotFound)
    {
      if id !in runs || runs[id].owner != owner {
        return Failure(NotFound);
      }
      return Success(runs[id]);
    }

    /** Overwrites the named columns of the row as it is now. */
    method UpdateRun(owner: string, id: RunId, changes: Changes) returns (r: Result<Run, RepositoryError>)
      requires Valid()
      modifies this`runs
      ensures Valid()
      ensures id in old(runs) && old(runs)[id].owner == owner ==>
                r == Success(Merge(old(runs)[id], changes)) && runs == old(runs)[id := r.value]
      ensures id in old(runs) && old(runs)[id].owner == owner ==>
                var was, run := old(runs)[id], runs[id];
                && run.owner == was.owner && run.targetCount == was.targetCount
                && run.latestEventSeq == was.latestEventSeq
                && run.status == (match changes.status case Some(s) => s case None => was.status)
                && (run.successCount, run.failedCount)
                   == (match changes.counts case Some(c) => c case None => (was.successCount, was.failedCount))
                && run.progress == (match changes.progress case Some(p) => p case None => was.progress)
                && run.cancelRequested == (match changes.cancelRequested case Some(c) => c case None => was.cancelRequested)
      ensures !(id in old(runs) && old(runs)[id].owner == owner) ==>
                r == Failure(NotFound) && runs == old(runs)
    {
      var found := GetRun(owner, id);
      if found.Failure? {
        return found;
      }
      var run := Merge(found.value, changes);
      runs := runs[id := run];
      return Success(run);
    }

    method AppendEvent(owner: string, id: RunId, kind: string, status: Status)
      returns (r: Result<Event, RepositoryError>)
      requires Valid()
      modifies this`runs, this`events
      ensures Valid()
      ensures id in old(runs) && old(runs)[id].owner == owner ==>
                var n := old(runs)[id].latestEventSeq + 1;
                && r == Success(Event(n, kind, status))
                && LogOf(id) == old(LogOf(id)) + [r.value] && |LogOf(id)| == n
                && runs == old(runs)[id := old(runs)[id].(latestEventSeq := n)]
      ensures !(id in old(runs) && old(runs)[id].owner == owner) ==>
                r == Failure(NotFound) && runs == old(runs) && events == old(events)
      ensures forall j :: j != id ==> LogOf(j) == old(LogOf(j))
    {
      var found := GetRun(owner, id);
      if found.Failure? {
        return Failure(found.error);
      }
      hide Numbered;
      var event := Event(found.value.latestEventSeq + 1, kind, status);
      NumberedNext(LogOf(id), found.value.latestEventSeq, event);
      events := events[id := LogOf(id) + [event]];
      runs := runs[id := runs[id].(latestEventSeq := event.seqNo)];
      return Success(event);
    }

    /** The first page of events after a number. */
    method ListEvents(owner: string, id: RunId, after: int) returns (r: Result<seq<Event>, RepositoryError>)
      requires Valid()
      ensures r == if id in runs && runs[id].owner == owner then Success(Page(LogOf(id), after))
                   else Failure(NotFound)
    {
      var found := GetRun(owner, id);
      if found.Failure? {
        return Failure(found.error);
      }
      var log := LogOf(id);
      var page: seq<Event> := [];
      for i := 0 to |log|
        invariant page == After(log[..i], after)
      {
        assert log[..i + 1][..i] == log[..i];
        if log[i].seqNo > after {
          page := page + [log[i]];
        }
      }
      assert log[..|log|] == log;
      return Success(if |page| > PAGE then page[..PAGE] else page);
    }

    method AddEvidence(owner: string, id: RunId, item: Evidence) returns (r: Result<Evidence, RepositoryError>)
      requires Valid()
      modifies this`evidence
      ensures id in runs && runs[id].owner == owner ==>
                r == Success(item) && evidence == old(evidence)[id := old(EvidenceOf(id)) + [item]]
      ensures !(id in runs && runs[id].owner == owner) ==>
                r == Failure(NotFound) && evidence == old(evidence)
    {
      var found := GetRun(owner, id);
      if found.Failure? {
        return Failure(found.error);
      }
      evidence := evidence[id := EvidenceOf(id) + [item]];
      return Success(item);
    }

    method SaveReport(owner: string, id: RunId, report: Report) returns (r: Result<Report, RepositoryError>)
      modifies this`reports
      ensures id in runs && runs[id].owner == owner ==>
                r == Success(report) && reports == old(reports)[id := report]
      ensures !(id in runs && runs[id].owner == owner) ==>
                r == Failure(NotFound) && reports == old(reports)
    {
      var found := GetRun(owner, id);
      if found.Failure? {
        return Failure(found.error);
      }
      reports := reports[id := report];
      return Success(report);
    }
  }

  // ---------------------------------------------------------------- polling

  /** The events numbered above `after`. */
  ghost function After(log: seq<Event>, after: int): seq<Event> {
    if log == [] then []
    else
      var n := |log| - 1;
      After(log[..n], after) + (if log[n].seqNo > after then [log[n]] else [])
  }

  ghost function Page(log: seq<Event>, after: int): seq<Event> {
    var all := After(log, after);
    if |all| > PAGE then all[..PAGE] else all
  }

  lemma {:induction false} AfterIsSuffix(log: seq<Event>, after: nat)
    requires Numbered(log, |log|)
    ensures After(log, after) == if after <= |log| then log[after..] else []
  {
    if log != [] {
      var n := |log| - 1;
      AfterIsSuffix(log[..n], after);
      assert after <= n ==> log[after..] == log[..n][after..] + [log[n]];
    }
  }

  /** What a client keeps that polls each of these snapshots of the log once, always from
      the last number it has seen. */
  ghost function Polled(logs: seq<seq<Event>>): seq<Event> {
    if logs == [] then []
    else
      var before := Polled(logs[..|logs| - 1]);
      before + Page(logs[|logs| - 1], if before == [] then 0 else before[|before| - 1].seqNo)
  }

  /** The log grows at its end only, and every snapshot is numbered. */
  ghost predicate Growing(logs: seq<seq<Event>>) {
    && (forall i :: 0 <= i < |logs| ==> Numbered(logs[i], |logs[i]|))
    && (forall i :: 0 < i < |logs| ==> logs[i - 1] <= logs[i])
  }

  lemma OnePoll(before: seq<Event>, log: seq<Event>)
    requires Numbered(log, |log|) && before <= log
    ensures var page := Page(log, if before == [] then 0 else before[|before| - 1].seqNo);
            && before + page <= log
            && (|page| < 200 ==> before + page == log)
  {
    hide After;
    var rest := log[|before|..];
    assert before != [] ==> before[|before| - 1].seqNo == |before|;
    AfterIsSuffix(log, |before|);
    assert log == before + rest;
    if |rest| > PAGE {
      assert before + rest[..PAGE] == log[..|before| + PAGE];
    }
  }

  /** While the log grows between polls, the client holds a gap-free beginning of it, and
      all of it whenever the last page was not full. */
  lemma {:induction false} PollingLosesNothing(logs: seq<seq<Event>>)
    requires Growing(logs) && logs != []
    ensures Polled(logs) <= logs[|logs| - 1]
    ensures |Polled(logs)| < |Polled(logs[..|logs| - 1])| + 200 ==> Polled(logs) == logs[|logs| - 1]
  {
    hide Page, Numbered;
    var n := |logs| - 1;
    var front, log := logs[..n], logs[n];
    if n > 0 {
      assert front[n - 1] == logs[n - 1];
      PollingLosesNothing(front);
      PrefixTrans(Polled(front), logs[n - 1], log);
    }
    OnePoll(Polled(front), log);
  }

  lemma PrefixTrans(a: seq<Event>, b: seq<Event>, c: seq<Event>)
    requires a <= b && b <= c
    ensures a <= c
  {
  }

  /** Once the log is still, `1 + |log| / 200` polls are enough to hold it all. */
  lemma {:induction false} PollingCatchesUp(logs: seq<seq<Event>>, log: seq<Event>, k: nat)
    requires Growing(logs) && k <= |logs|
    requires forall i :: |logs| - k <= i < |logs| ==> logs[i] == log
    requires k > |log| / 200
    ensures Polled(logs) == log
  {
    PollingAdvances(logs, log, k);
  }

  lemma {:induction false} PollingAdvances(logs: seq<seq<Event>>, log: seq<Event>, k: nat)
    requires Growing(logs) && k <= |logs|
    requires forall i :: |logs| - k <= i < |logs| ==> logs[i] == log
    ensures k > 0 ==> Polled(logs) <= log
    ensures k > 0 ==> Polled(logs) == log || |Polled(logs)| >= k * 200
  {
    if k > 0 {
      PollingLosesNothing(logs);
      PollingAdvances(logs[..|logs| - 1], log, k - 1);
    }
  }
}

/** The deterministic analyzer: bounded evidence in, cited findings out. */
module DiagnosticAnalyzer {
  import opened Wrappers

  type EvidenceId = string

  datatype Evidence = Evidence(id: EvidenceId, target: int, alias: string, probe: string, kind: string,
                               success: bool, content: string, error: string, truncated: bool)

  datatype Severity = Info | Warning | Critical

  datatype Finding = Finding(severity: Severity, alias: string, kind: string, cites: seq<EvidenceId>)

  datatype Report = Report(findings: seq<Finding>, severity: Severity, insufficient: bool)

  /** What the regular expressions and number parsers read out of a probe's text. */
  datatype Signals = Signals(
    highestPercent: string -> Option<nat>,
    availablePercent: string -> Option<int>,
    cpuCount: string -> Option<nat>,
    oneMinuteLoad: string -> Option<real>,
    failedServices: string -> nat,
    portMissing: string -> bool,
    unhealthy: string -> nat,
    exited: string -> nat,
    highestRestart: string -> nat,
    logErrors: string -> nat,
    isBlank: string -> bool)

  function Rank(s: Severity): nat {
    match s
    case Info => 0
    case Warning => 1
    case Critical => 2
  }

  // ---------------------------------------------------------------- one item of evidence

  function Cite(item: Evidence, severity: Severity): Finding {
    Finding(severity, item.alias, item.kind, [item.id])
  }

  function UsageFinding(sig: Signals, item: Evidence): Option<Finding> {
    var highest := sig.highestPercent(item.content);
    if highest == None || highest.value < 85 then None
    else Some(Cite(item, if highest.value >= 95 then Critical else Warning))
  }

  function MemoryFinding(sig: Signals, item: Evidence): Option<Finding> {
    var available := sig.availablePercent(item.content);
    if available == None || available.value >= 20 then None
    else Some(Cite(item, if available.value < 10 then Critical else Warning))
  }

  function LoadFinding(sig: Signals, item: Evidence, cpu: Evidence): Option<Finding> {
    var count, load := sig.cpuCount(cpu.content), sig.oneMinuteLoad(item.content);
    if count == None || count.value == 0 || load == None || load.value <= count.value as real then None
    else
      var f := Cite(item, if load.value >= (2 * count.value) as real then Critical else Warning);
      Some(f.(cites := f.cites + [cpu.id]))
  }

  function ServiceFinding(sig: Signals, item: Evidence): Option<Finding> {
    if sig.failedServices(item.content) == 0 then None else Some(Cite(item, Critical))
  }

  function PortFinding(sig: Signals, item: Evidence): Option<Finding> {
    if sig.portMissing(item.content) then Some(Cite(item, Critical)) else None
  }

  function DockerFinding(sig: Signals, item: Evidence): Option<Finding> {
    var unhealthy, exited := sig.unhealthy(item.content), sig.exited(item.content);
    var restarts := if item.probe == "docker_restarts" then sig.highestRestart(item.content) else 0;
    if unhealthy == 0 && exited == 0 && restarts == 0 then None
    else Some(Cite(item, if unhealthy > 0 || restarts >= 3 then Critical else Warning))
  }

  function LogFinding(sig: Signals, item: Evidence, baseline: Option<Evidence>): Option<Finding> {
    var count := sig.logErrors(item.content);
    var f := Cite(item, if count >= 10 then Critical else Warning);
    if count < 3 then None
    else if baseline == None then Some(f)
    else if count < 2 * sig.logErrors(baseline.value.content) then None
    else Some(f.(cites := f.cites + [baseline.value.id]))
  }

  function FindingOf(sig: Signals, item: Evidence, cpu: Option<Evidence>, baseline: Option<Evidence>): Option<Finding> {
    if !item.success then Some(Cite(item, Warning))
    else if item.kind == "disk" || item.kind == "inode" then UsageFinding(sig, item)
    else if item.kind == "memory" && item.probe == "memory" then MemoryFinding(sig, item)
    else if item.kind == "load" then
      if cpu == None then None else LoadFinding(sig, item, cpu.value)
    else if item.kind == "service" then ServiceFinding(sig, item)
    else if item.kind == "port" then PortFinding(sig, item)
    else if item.kind == "docker" then DockerFinding(sig, item)
    else if item.kind == "logs" then
      if item.probe == "warning_logs_current" then
        if baseline == None then None else LogFinding(sig, item, baseline)
      else if item.probe == "warning_logs_baseline" then None
      else LogFinding(sig, item, None)
    else None
  }

  // ---------------------------------------------------------------- the thresholds, written out

  /** A finding of this severity that cites these items, or none. */
  ghost predicate Finds(f: Option<Finding>, item: Evidence, found: bool, critical: bool, cites: seq<EvidenceId>) {
    if !found then f == None
    else f == Some(Finding(if critical then Critical else Warning, item.alias, item.kind, cites))
  }

  /** Failed evidence is a warning of its own. */
  lemma FailedMeans(sig: Signals, item: Evidence, cpu: Option<Evidence>, baseline: Option<Evidence>)
    requires !item.success
    ensures Finds(FindingOf(sig, item, cpu, baseline), item, true, false, [item.id])
  {
  }

  /** Disks and inodes from 85 percent, critical from 95; memory below 20 percent available,
      critical below 10. */
  lemma UsageMeans(sig: Signals, item: Evidence, cpu: Option<Evidence>, baseline: Option<Evidence>)
    requires item.success
    ensures item.kind == "disk" || item.kind == "inode" ==>
              var used := sig.highestPercent(item.content);
              Finds(FindingOf(sig, item, cpu, baseline), item, used.Some? && used.value >= 85,
                    used.Some? && used.value >= 95, [item.id])
    ensures item.kind == "memory" ==>
              var free := sig.availablePercent(item.content);
              Finds(FindingOf(sig, item, cpu, baseline), item,
                    item.probe == "memory" && free.Some? && free.value < 20,
                    free.Some? && free.value < 10, [item.id])
  {
  }

  /** Load above the number of processors, critical from twice that number. */
  lemma LoadMeans(sig: Signals, item: Evidence, cpu: Option<Evidence>, baseline: Option<Evidence>)
    requires item.success && item.kind == "load"
    ensures cpu == None ==> FindingOf(sig, item, cpu, baseline) == None
    ensures cpu.Some? ==>
              var count, load := sig.cpuCount(cpu.value.content), sig.oneMinuteLoad(item.content);
              var known := count.Some? && count.value > 0 && load.Some?;
              Finds(FindingOf(sig, item, cpu, baseline), item,
                    known && load.value > count.value as real,
                    known && load.value >= 2.0 * count.value as real, [item.id, cpu.value.id])
  {
    if cpu.Some? {
      assert [item.id] + [cpu.value.id] == [item.id, cpu.value.id];
    }
  }

  /** Any failed service or missing port is critical; so are unhealthy containers and three
      restarts, while exited containers and fewer restarts are a warning. */
  lemma ServiceMeans(sig: Signals, item: Evidence, cpu: Option<Evidence>, baseline: Option<Evidence>)
    requires item.success
    ensures item.kind == "service" ==>
              Finds(FindingOf(sig, item, cpu, baseline), item, sig.failedServices(item.content) > 0, true, [item.id])
    ensures item.kind == "port" ==>
              Finds(FindingOf(sig, item, cpu, baseline), item, sig.portMissing(item.content), true, [item.id])
    ensures item.kind == "docker" ==>
              var sick, gone := sig.unhealthy(item.content), sig.exited(item.content);
              var restarts := if item.probe == "docker_restarts" then sig.highestRestart(item.content) else 0;
              Finds(FindingOf(sig, item, cpu, baseline), item, sick + gone + restarts > 0, sick > 0 || restarts >= 3,
                    [item.id])
  {
  }

  /** Three error lines and, where there is a baseline, twice as many as it has; critical from
      ten. Current warnings need a baseline, and the baseline itself is never a finding. */
  lemma LogMeans(sig: Signals, item: Evidence, cpu: Option<Evidence>, baseline: Option<Evidence>)
    requires item.success && item.kind == "logs"
    ensures var errors, f := sig.logErrors(item.content), FindingOf(sig, item, cpu, baseline);
            if item.probe == "warning_logs_baseline" then f == None
            else if item.probe != "warning_logs_current" then Finds(f, item, errors >= 3, errors >= 10, [item.id])
            else if baseline == None then f == None
            else Finds(f, item, errors >= 3 && errors >= 2 * sig.logErrors(baseline.value.content), errors >= 10,
                       [item.id, baseline.value.id])
  {
    if baseline.Some? {
      assert [item.id] + [baseline.value.id] == [item.id, baseline.value.id];
    }
  }

  /** Nothing else is ever found. */
  lemma OtherKinds(sig: Signals, item: Evidence, cpu: Option<Evidence>, baseline: Option<Evidence>)
    requires item.success && FindingOf(sig, item, cpu, baseline).Some?
    ensures item.kind in {"disk", "inode", "memory", "load", "service", "port", "docker", "logs"}
  {
  }

  // ---------------------------------------------------------------- the whole list

  predicate IsCpuCount(sig: Signals, item: Evidence) {
    item.probe == "cpu_count" && item.success
    && sig.cpuCount(item.content).Some? && sig.cpuCount(item.content).value > 0
  }

  predicate IsLogBaseline(sig: Signals, item: Evidence) {
    item.probe == "warning_logs_baseline" && item.success && !sig.isBlank(item.content)
  }

  /** The last item of the list that qualifies for an asset. */
  ghost function Latest(items: seq<Evidence>, qualifies: Evidence -> bool, alias: string): Option<Evidence> {
    if items == [] then None
    else
      var last := items[|items| - 1];
      if last.alias == alias && qualifies(last) then Some(last)
      else Latest(items[..|items| - 1], qualifies, alias)
  }

  /** The item at place `k` is the last one of the asset that qualifies. */
  ghost predicate LastAt(items: seq<Evidence>, k: nat, qualifies: Evidence -> bool, alias: string) {
    && k < |items| && items[k].alias == alias && qualifies(items[k])
    && forall i :: k < i < |items| ==> !(items[i].alias == alias && qualifies(items[i]))
  }

  lemma {:induction false} LatestMeans(items: seq<Evidence>, qualifies: Evidence -> bool, alias: string, k: nat)
    ensures LastAt(items, k, qualifies, alias) ==> Latest(items, qualifies, alias) == Some(items[k])
    ensures (forall i :: 0 <= i < |items| ==> !(items[i].alias == alias && qualifies(items[i])))
            ==> Latest(items, qualifies, alias) == None
  {
    if items != [] {
      LatestMeans(items[..|items| - 1], qualifies, alias, k);
    }
  }

  /** The helpers of an asset: its last successful processor count above zero, and its last
      successful baseline log that is not blank. */
  lemma HelpersAre(sig: Signals, items: seq<Evidence>, alias: string, k: nat)
    ensures var counts := (i: Evidence) =>
              i.success && i.probe == "cpu_count" && sig.cpuCount(i.content).Some? && sig.cpuCount(i.content).value != 0;
            var cpu := Latest(items, i => IsCpuCount(sig, i), alias);
            && (LastAt(items, k, counts, alias) ==> cpu == Some(items[k]))
            && ((forall i :: 0 <= i < |items| ==> !(items[i].alias == alias && counts(items[i]))) ==> cpu == None)
    ensures var holds := (i: Evidence) =>
              i.success && i.probe == "warning_logs_baseline" && !sig.isBlank(i.content);
            var log := Latest(items, i => IsLogBaseline(sig, i), alias);
            && (LastAt(items, k, holds, alias) ==> log == Some(items[k]))
            && ((forall i :: 0 <= i < |items| ==> !(items[i].alias == alias && holds(items[i]))) ==> log == None)
  {
    LatestMeans(items, i => IsCpuCount(sig, i), alias, k);
    LatestMeans(items, i => IsLogBaseline(sig, i), alias, k);
  }

  function Lookup(m: map<string, Evidence>, alias: string): Option<Evidence> {
    if alias in m then Some(m[alias]) else None
  }

  ghost function FindingsOf(sig: Signals, items: seq<Evidence>, all: seq<Evidence>): seq<Finding> {
    if items == [] then []
    else
      var n := |items| - 1;
      var f := FindingOf(sig, items[n],
                         Latest(all, i => IsCpuCount(sig, i), items[n].alias),
                         Latest(all, i => IsLogBaseline(sig, i), items[n].alias));
      FindingsOf(sig, items[..n], all) + (if f.Some? then [f.value] else [])
  }

  ghost predicate IsSeverityOf(s: Severity, findings: seq<Finding>) {
    && (forall f :: f in findings ==> Rank(f.severity) <= Rank(s))
    && (findings == [] ==> s == Info)
    && (findings != [] ==> exists f :: f in findings && f.severity == s)
  }

  method Worst(findings: seq<Finding>) returns (s: Severity)
    ensures IsSeverityOf(s, findings)
    ensures s == Critical <==> exists f :: f in findings && f.severity == Critical
    ensures s == Info <==> forall f :: f in findings ==> f.severity == Info
  {
    s := if findings == [] then Info else findings[0].severity;
    for i := 0 to |findings|
      invariant forall j :: 0 <= j < i ==> Rank(findings[j].severity) <= Rank(s)
      invariant findings != [] ==> exists f :: f in findings && f.severity == s
      invariant findings == [] ==> s == Info
    {
      if Rank(findings[i].severity) > Rank(s) {
        s := findings[i].severity;
      }
    }
  }

  method Analyze(sig: Signals, items: seq<Evidence>) returns (report: Report)
    ensures report.findings == FindingsOf(sig, items, items)
    ensures IsSeverityOf(report.severity, report.findings)
    ensures report.severity == Critical <==> exists f :: f in report.findings && f.severity == Critical
    ensures report.severity == Info <==> forall f :: f in report.findings ==> f.severity == Info
    ensures report.insufficient <==> forall i :: 0 <= i < |items| ==> !items[i].success
  {
    var cpus: map<string, Evidence> := map[];
    var baselines: map<string, Evidence> := map[];
    ghost var isCpu := (i: Evidence) => IsCpuCount(sig, i);
    ghost var isBaseline := (i: Evidence) => IsLogBaseline(sig, i);
    for i := 0 to |items|
      invariant forall a :: Lookup(cpus, a) == Latest(items[..i], isCpu, a)
      invariant forall a :: Lookup(baselines, a) == Latest(items[..i], isBaseline, a)
    {
      assert items[..i + 1][..i] == items[..i];
      if IsCpuCount(sig, items[i]) {
        cpus := cpus[items[i].alias := items[i]];
      }
      if IsLogBaseline(sig, items[i]) {
        baselines := baselines[items[i].alias := items[i]];
      }
    }
    assert items[..|items|] == items;

    var findings: seq<Finding> := [];
    var successful := 0;
    for i := 0 to |items|
      invariant findings == FindingsOf(sig, items[..i], items)
      invariant successful == 0 <==> forall j :: 0 <= j < i ==> !items[j].success
      invariant successful >= 0
    {
      assert items[..i + 1][..i] == items[..i];
      var item := items[i];
      var finding := FindingOf(sig, item, Lookup(cpus, item.alias), Lookup(baselines, item.alias));
      if finding.Some? {
        findings := findings + [finding.value];
      }
      if item.success {
        successful := successful + 1;
      }
    }
    var severity := Worst(findings);
    return Report(findings, severity, successful == 0);
  }

  // ---------------------------------------------------------------- citations

  ghost predicate CitesOnly(f: Finding, items: seq<Evidence>) {
    f.cites != [] && forall id :: id in f.cites ==> exists i :: i in items && i.id == id
  }

  /** The check made before a report is stored. */
  predicate CitationsHold(findings: seq<Finding>, items: seq<Evidence>) {
    var ids := set i | i in items :: i.id;
    forall f | f in findings :: f.cites != [] && forall id | id in f.cites :: id in ids
  }

  lemma {:induction false} LatestIsItem(items: seq<Evidence>, qualifies: Evidence -> bool, alias: string)
    ensures var l := Latest(items, qualifies, alias);
            l.Some? ==> l.value in items && l.value.alias == alias && qualifies(l.value)
  {
    if items != [] {
      LatestIsItem(items[..|items| - 1], qualifies, alias);
    }
  }

  /** What a finding cites: its own item first, and at most one helper. */
  lemma FindingCites(sig: Signals, item: Evidence, cpu: Option<Evidence>, baseline: Option<Evidence>)
    ensures var f := FindingOf(sig, item, cpu, baseline);
            f.Some? ==>
              && f.value.alias == item.alias
              && (|| f.value.cites == [item.id]
                  || (item.kind == "load" && cpu.Some? && f.value.cites == [item.id, cpu.value.id])
                  || (item.kind == "logs" && baseline.Some? && f.value.cites == [item.id, baseline.value.id]))
  {
  }

  lemma {:induction false} FindingsCite(sig: Signals, items: seq<Evidence>, all: seq<Evidence>)
    requires forall i :: i in items ==> i in all
    ensures forall f :: f in FindingsOf(sig, items, all) ==> CitesOnly(f, all)
  {
    hide FindingOf;
    if items != [] {
      var n := |items| - 1;
      FindingsCite(sig, items[..n], all);
      assert items[n] in items;
      var cpu := Latest(all, i => IsCpuCount(sig, i), items[n].alias);
      var baseline := Latest(all, i => IsLogBaseline(sig, i), items[n].alias);
      LatestIsItem(all, i => IsCpuCount(sig, i), items[n].alias);
      LatestIsItem(all, i => IsLogBaseline(sig, i), items[n].alias);
      FindingCites(sig, items[n], cpu, baseline);
    }
  }

  /** The guard passes if and only if every finding cites something, and only these items. */
  lemma GuardMeans(findings: seq<Finding>, items: seq<Evidence>)
    ensures CitationsHold(findings, items) <==> forall f :: f in findings ==> CitesOnly(f, items)
  {
    var ids := set i | i in items :: i.id;
    assert forall f: Finding :: CitesOnly(f, items) <==> f.cites != [] && forall id | id in f.cites :: id in ids;
  }

  /** For every list of evidence, the guard that rejects foreign citations passes. */
  lemma CitationsAlwaysHold(sig: Signals, items: seq<Evidence>)
    ensures CitationsHold(FindingsOf(sig, items, items), items)
    ensures forall f :: f in FindingsOf(sig, items, items) ==> CitesOnly(f, items)
  {
    hide CitesOnly, CitationsHold, FindingsOf;
    FindingsCite(sig, items, items);
    GuardMeans(FindingsOf(sig, items, items), items);
  }

  /** A finding that comes from two items concerns one asset: the second item is the
      asset's own processor count or log baseline, and both were collected. */
  lemma SecondCitation(sig: Signals, items: seq<Evidence>, item: Evidence, f: Finding)
    requires item in items && item.success
    requires FindingOf(sig, item, Latest(items, i => IsCpuCount(sig, i), item.alias),
                       Latest(items, i => IsLogBaseline(sig, i), item.alias)) == Some(f)
    requires |f.cites| > 1
    ensures f.cites[0] == item.id && |f.cites| == 2
    ensures exists i :: i in items && i.alias == item.alias && i.success && i.id == f.cites[1]
                        && ((i.probe == "cpu_count" && sig.cpuCount(i.content).Some? && sig.cpuCount(i.content).value > 0)
                            || (i.probe == "warning_logs_baseline" && !sig.isBlank(i.content)))
  {
    hide FindingOf;
    LatestIsItem(items, i => IsCpuCount(sig, i), item.alias);
    LatestIsItem(items, i => IsLogBaseline(sig, i), item.alias);
    FindingCites(sig, item, Latest(items, i => IsCpuCount(sig, i), item.alias),
                 Latest(items, i => IsLogBaseline(sig, i), item.alias));
  }
}

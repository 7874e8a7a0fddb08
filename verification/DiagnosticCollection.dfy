/**
 Collecting evidence: probes in order, each after a check, under one budget shared by all of
 them, while anybody may cancel the run or take away its permissions.
 */
module DiagnosticCollection {
  import opened Wrappers
  import opened DiagnosticAnalyzer

  const MAX_ERROR := 2048

  datatype Probe = Probe(id: string, kind: string, maxOutput: nat)

  datatype RawItem = RawItem(host: int, alias: string, success: bool, output: string, error: string, truncated: bool)

  /** What one batch over SSH does: it reports progress, then returns items or raises. */
  datatype Batch = Batch(progress: seq<(int, bool)>, items: Option<seq<RawItem>>)

  /** What a concurrent cancel does between two of the run's own steps. Its check of the
      status happened earlier; its update and its event are two steps. */
  datatype Interference = Nothing | CancelUpdate | CancelEvent

  datatype Oracle = Oracle(
    interference: nat -> Interference,
    authorized: nat -> bool,
    batch: (nat, nat) -> Batch,                 // the probe, and when
    uuid: nat -> string,
    signals: Signals,
    sanitize: string -> string)

  /** What a run did, for the proof: its cancellation checks and its probes, in order, each
      with the number of interactions before it. */
  datatype Trace = Polled(stop: bool, turn: nat) | Probed(probe: nat, turn: nat)

  // ---------------------------------------------------------------- the evidence budget

  datatype Collected = Collected(target: int, alias: string, probe: string, kind: string, success: bool,
                                 content: string, error: string, truncated: bool)

  ghost function Spent(items: seq<Collected>): nat {
    if items == [] then 0 else Spent(items[..|items| - 1]) + |items[|items| - 1].content|
  }

  function Cut(s: string, limit: nat): (r: string)
    ensures r <= s && |r| == if |s| < limit then |s| else limit
  {
    if |s| > limit then s[..limit] else s
  }

  /** The item comes from this raw output, within these limits; a cut shows. */
  ghost predicate FromRaw(sanitize: string -> string, c: Collected, raw: RawItem, limit: nat) {
    && c.target == raw.host && c.alias == raw.alias && c.success == raw.success
    && c.content <= sanitize(raw.output) && |c.content| <= limit
    && c.error <= sanitize(raw.error)
    && |c.error| == (if |sanitize(raw.error)| < 2048 then |sanitize(raw.error)| else 2048)
    && (c.truncated <==> raw.truncated || c.content != sanitize(raw.output))
  }

  function Min3(a: nat, b: nat, c: nat): nat {
    if a <= b && a <= c then a else if b <= c then b else c
  }

  /** One item: cut to its probe's limit, then to what is left of the budget. */
  method TakeItem(sanitize: string -> string, probe: Probe, raw: RawItem, limit: nat, remaining: nat)
    returns (c: Collected, left: nat)
    ensures FromRaw(sanitize, c, raw, limit) && |c.content| <= remaining
    ensures left + |c.content| == remaining
    ensures Fills(sanitize, c, raw, limit, remaining)
    ensures c.probe == probe.id && c.kind == probe.kind
  {
    var content := sanitize(raw.output);
    var truncated := raw.truncated;
    if |content| > limit {
      content := content[..limit];
      truncated := true;
    }
    if |content| > remaining {
      content := content[..remaining];
      truncated := true;
    }
    left := remaining - |content|;
    c := Collected(raw.host, raw.alias, probe.id, probe.kind, raw.success, content,
                   Cut(sanitize(raw.error), MAX_ERROR), truncated);
  }

  lemma SpentNext(items: seq<Collected>, c: Collected)
    ensures Spent(items + [c]) == Spent(items) + |c.content|
  {
    assert (items + [c])[..|items|] == items;
  }

  lemma {:induction false} SpentConcat(a: seq<Collected>, b: seq<Collected>)
    ensures Spent(a + b) == Spent(a) + Spent(b)
  {
    if b == [] {
      assert a + b == a;
    } else {
      var n := |b| - 1;
      SpentConcat(a, b[..n]);
      assert b == b[..n] + [b[n]];
      assert a + b == (a + b[..n]) + [b[n]];
      SpentNext(a + b[..n], b[n]);
    }
  }

  /** A text is kept whole, or as far as a limit or what is left of the budget allows. */
  ghost predicate Fills(sanitize: string -> string, c: Collected, raw: RawItem, limit: nat, left: int) {
    && |c.content| <= left
    && (c.content == sanitize(raw.output) || |c.content| == limit || |c.content| == left)
  }

  /** Every item a probe returned, cut to fit, and no shorter. */
  ghost predicate FromProbe(sanitize: string -> string, items: seq<Collected>, raw: seq<RawItem>, probe: Probe,
                            limit: nat, remaining: nat)
  {
    && |items| == |raw|
    && forall i :: 0 <= i < |raw| ==>
         && FromRaw(sanitize, items[i], raw[i], limit) && items[i].probe == probe.id && items[i].kind == probe.kind
         && Fills(sanitize, items[i], raw[i], limit, remaining - Spent(items[..i]))
  }

  lemma FromProbeNext(sanitize: string -> string, items: seq<Collected>, raw: seq<RawItem>, i: nat, probe: Probe,
                      limit: nat, remaining: nat, c: Collected)
    requires i < |raw| && FromProbe(sanitize, items, raw[..i], probe, limit, remaining)
    requires FromRaw(sanitize, c, raw[i], limit) && c.probe == probe.id && c.kind == probe.kind
    requires Fills(sanitize, c, raw[i], limit, remaining - Spent(items))
    ensures FromProbe(sanitize, items + [c], raw[..i + 1], probe, limit, remaining)
  {
    hide FromRaw, Fills, Spent;
    assert forall j :: 0 <= j <= i ==> (items + [c])[..j] == items[..j];
    assert items[..i] == items;
  }

  lemma NothingTaken(sanitize: string -> string, probe: Probe, limit: nat, remaining: nat)
    ensures FromProbe(sanitize, [], [], probe, limit, remaining)
  {
  }

  method TakeItems(sanitize: string -> string, probe: Probe, raw: seq<RawItem>, limit: nat, remaining: nat)
    returns (items: seq<Collected>, left: nat)
    ensures FromProbe(sanitize, items, raw, probe, limit, remaining)
    ensures left + Spent(items) == remaining
  {
    hide FromRaw, FromProbe;
    NothingTaken(sanitize, probe, limit, remaining);
    items, left := [], remaining;
    for i := 0 to |raw|
      invariant FromProbe(sanitize, items, raw[..i], probe, limit, remaining)
      invariant left + Spent(items) == remaining
    {
      var c, l := TakeItem(sanitize, probe, raw[i], limit, left);
      SpentNext(items, c);
      FromProbeNext(sanitize, items, raw, i, probe, limit, remaining, c);
      items, left := items + [c], l;
    }
    assert raw[..|raw|] == raw;
  }

  // ---------------------------------------------------------------- what a run did

  /** Probes run in order, each directly after a check that saw no reason to stop; so
      nothing follows a check that saw one. */
  ghost predicate PollsFirst(t: seq<Trace>) {
    forall i :: 0 <= i < |t| ==> InTurn(t, i)
  }

  ghost predicate InTurn(t: seq<Trace>, i: nat)
    requires i < |t|
  {
    if i % 2 == 0 then t[i].Polled?
    else t[i].Probed? && t[i].probe == i / 2 && t[i - 1].Polled? && !t[i - 1].stop
  }

  lemma NothingAfterStop(t: seq<Trace>, i: nat)
    requires PollsFirst(t) && i < |t| && t[i].Polled? && t[i].stop
    ensures i == |t| - 1
  {
    assert InTurn(t, i);
    assert i + 1 < |t| ==> InTurn(t, i + 1);
  }

  lemma AnotherPoll(t: seq<Trace>, poll: Trace)
    requires PollsFirst(t) && |t| % 2 == 0 && poll.Polled?
    ensures PollsFirst(t + [poll])
  {
    forall i | 0 <= i < |t| + 1
      ensures InTurn(t + [poll], i)
    {
      assert i < |t| ==> InTurn(t, i);
    }
  }

  lemma AnotherProbe(t: seq<Trace>, p: nat, turn: nat)
    requires PollsFirst(t) && |t| == 2 * p + 1 && t[2 * p].Polled? && !t[2 * p].stop
    ensures PollsFirst(t + [Probed(p, turn)])
  {
    forall i | 0 <= i < |t| + 1
      ensures InTurn(t + [Probed(p, turn)], i)
    {
      assert i < |t| ==> InTurn(t, i);
    }
  }

  /** An item, with the probe that returned it. */
  datatype Output = Output(probe: nat, raw: RawItem)

  ghost function Outputs(probe: nat, items: seq<RawItem>): (r: seq<Output>)
    ensures |r| == |items| && forall i :: 0 <= i < |items| ==> r[i] == Output(probe, items[i])
  {
    seq(|items|, i requires 0 <= i < |items| => Output(probe, items[i]))
  }

  /** Every item the probes of a run returned, in order. */
  ghost function Returned(batch: (nat, nat) -> Batch, t: seq<Trace>): seq<Output> {
    if t == [] then []
    else
      var last := t[|t| - 1];
      Returned(batch, t[..|t| - 1])
      + (if last.Probed? && batch(last.probe, last.turn).items.Some?
         then Outputs(last.probe, batch(last.probe, last.turn).items.value) else [])
  }

  lemma ReturnedPolled(batch: (nat, nat) -> Batch, t: seq<Trace>, poll: Trace)
    requires poll.Polled?
    ensures Returned(batch, t + [poll]) == Returned(batch, t)
  {
    assert (t + [poll])[..|t|] == t;
  }

  lemma ReturnedProbed(batch: (nat, nat) -> Batch, t: seq<Trace>, probe: nat, turn: nat)
    requires batch(probe, turn).items.Some?
    ensures Returned(batch, t + [Probed(probe, turn)])
         == Returned(batch, t) + Outputs(probe, batch(probe, turn).items.value)
  {
    assert (t + [Probed(probe, turn)])[..|t|] == t;
  }

  // ---------------------------------------------------------------- cancels and lost permission

  /** A cancel is recorded during one of these interactions. */
  ghost predicate CancelIn(o: Oracle, from: nat, to: nat) {
    exists t :: from <= t < to && o.interference(t) == CancelUpdate
  }

  lemma CancelSplit(o: Oracle, a: nat, b: nat, c: nat)
    requires a <= b <= c
    ensures CancelIn(o, a, c) <==> CancelIn(o, a, b) || CancelIn(o, b, c)
  {
  }

  lemma CancelOne(o: Oracle, a: nat)
    ensures CancelIn(o, a, a + 1) <==> o.interference(a) == CancelUpdate
    ensures !CancelIn(o, a, a)
  {
  }

  /** What a check has to say of a run that began with interaction `began`: it stops the run
      if and only if a cancel was recorded before it or the authorization is gone. */
  ghost predicate Tells(o: Oracle, began: nat, e: Trace) {
    e.Polled? ==> (e.stop <==> CancelIn(o, began, e.turn) || !o.authorized(e.turn))
  }

  ghost predicate Honest(o: Oracle, began: nat, t: seq<Trace>, now: nat) {
    forall i :: 0 <= i < |t| ==> Tells(o, began, t[i]) && t[i].turn <= now
  }

  /** A check found the authorization gone before any cancel was recorded. */
  ghost predicate SeesLoss(o: Oracle, began: nat, e: Trace) {
    e.Polled? && !o.authorized(e.turn) && !CancelIn(o, began, e.turn)
  }

  ghost predicate Lost(o: Oracle, began: nat, t: seq<Trace>) {
    exists i :: 0 <= i < |t| && SeesLoss(o, began, t[i])
  }

  ghost predicate Stopped(t: seq<Trace>) {
    exists i :: 0 <= i < |t| && t[i].Polled? && t[i].stop
  }

  ghost predicate BatchRaises(o: Oracle, e: Trace) {
    e.Probed? && o.batch(e.probe, e.turn).items.None?
  }

  ghost predicate Raised(o: Oracle, t: seq<Trace>) {
    exists i :: 0 <= i < |t| && BatchRaises(o, t[i])
  }

  /** One more entry. */
  lemma TraceNext(o: Oracle, began: nat, t: seq<Trace>, e: Trace, before: nat, now: nat)
    requires Honest(o, began, t, before) && before <= now
    requires Tells(o, began, e) && e.turn <= now
    ensures Honest(o, began, t + [e], now)
    ensures Lost(o, began, t + [e]) <==> Lost(o, began, t) || SeesLoss(o, began, e)
    ensures Stopped(t + [e]) <==> Stopped(t) || (e.Polled? && e.stop)
    ensures Raised(o, t + [e]) <==> Raised(o, t) || BatchRaises(o, e)
  {
    hide Tells, SeesLoss, BatchRaises;
    var all := t + [e];
    assert all[|t|] == e;
    assert forall i :: 0 <= i < |t| ==> all[i] == t[i];
  }

  lemma HonestLater(o: Oracle, began: nat, t: seq<Trace>, before: nat, now: nat)
    requires Honest(o, began, t, before) && before <= now
    ensures Honest(o, began, t, now)
  {
    hide Tells;
  }
}

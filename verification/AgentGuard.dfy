/**
 What a run knows of its lock, for the proof: when it was last renewed, whether another run
 got in, every save the run made, and the calls to the lock as a run of the lock model.
 */
module AgentGuard {
  import opened Wrappers
  import RunLock

  const LOCK_TTL := 600

  /** A run waits at most four times between two renewals; if each wait is shorter than this,
      they do not outlast the lease. */
  const BRIEF := 150

  /** What a save of the whole conversation is for. */
  datatype Kind = Question | Reply | Answer | Started | Finished | Drafted | Progress | Telemetry | Cut | Refusal | Rows

  /** Saves made directly after a renewal: no time passes between. The others come after a
      wait: a question after the provider is set up, a cut or a refusal after the summarizer,
      and what a tool writes, or is told of it, after the tool has run. */
  predicate Prompt(k: Kind) {
    k.Reply? || k.Answer? || k.Started? || k.Progress? || k.Telemetry?
  }

  /** A save, with the last renewal then, and its place among the calls. */
  datatype Save = Save(kind: Kind, at: int, renewed: int, step: nat)

  datatype Guard = Guard(renewed: int, idle: nat, intruded: bool, saves: seq<Save>,
                         worlds: seq<RunLock.World>, calls: seq<RunLock.Step>)

  ghost predicate Along(g: Guard, now: int, lock: Option<RunLock.Lock>) {
    && RunLock.IsRun(g.worlds, g.calls)
    && g.worlds[|g.calls|].now == now && g.worlds[|g.calls|].lock == lock
  }

  /** The first call acquired the lock; whoever else writes holds the lock then, and is
      marked. */
  ghost predicate Disciplined(g: Guard, token: RunLock.Token) {
    && |g.worlds| == |g.calls| + 1
    && g.calls != [] && g.calls[0] == RunLock.Acquire(token, LOCK_TTL)
    && (forall m :: 0 <= m < |g.calls| && IsForeign(g.calls[m], token) ==> RunLock.Live(g.worlds, m, g.calls[m].token))
    && (g.intruded <==> exists m :: 0 <= m < |g.calls| && IsForeign(g.calls[m], token))
  }

  predicate IsForeign(step: RunLock.Step, token: RunLock.Token) {
    step.Write? && step.token != token
  }

  /** Tokens are UUIDs: strangers draw others than the run's, and never one twice. */
  ghost predicate Fair(stranger: nat -> Option<RunLock.Token>, token: RunLock.Token) {
    && (forall t :: stranger(t) != Some(token))
    && (forall t, u :: t < u && stranger(t).Some? ==> stranger(t) != stranger(u))
  }

  /** The tokens drawn so far are the run's own and those of earlier strangers. */
  ghost predicate Drawn(g: Guard, token: RunLock.Token, stranger: nat -> Option<RunLock.Token>, turn: nat) {
    && |g.worlds| == |g.calls| + 1
    && forall x :: x in g.worlds[|g.calls|].used ==> x == token || exists t :: 0 <= t < turn && stranger(t) == Some(x)
  }

  /** Until another run gets in, the key is as the last renewal left it. Another run gets in
      only when the lease is over, and from then on the lock is never the run's again. */
  ghost predicate Holding(g: Guard, token: RunLock.Token, now: int, lock: Option<RunLock.Lock>) {
    && g.renewed <= now
    && (!g.intruded ==> lock == Some(RunLock.Lock(token, g.renewed + LOCK_TTL)))
    && (g.intruded ==> now >= g.renewed + LOCK_TTL && !RunLock.HeldBy(lock, now, token))
  }

  /** A save is one of the calls; it was made under the lock if and only if the last renewal
      was less than a lease ago, and that is certain for the prompt ones. */
  ghost predicate Tells(g: Guard, token: RunLock.Token, s: Save) {
    && |g.worlds| == |g.calls| + 1 && s.step < |g.calls| && g.calls[s.step] == RunLock.Write(token)
    && g.worlds[s.step].now == s.at
    && (RunLock.Live(g.worlds, s.step, token) <==> s.at < s.renewed + LOCK_TTL)
    && (Prompt(s.kind) ==> RunLock.Live(g.worlds, s.step, token))
  }

  ghost predicate SavesTell(g: Guard, token: RunLock.Token) {
    forall s :: s in g.saves ==> Tells(g, token, s)
  }

  /** With brief pauses only, the lock is never lost. */
  ghost predicate Timely(g: Guard, brief: bool, now: int) {
    && g.idle <= 4
    && (brief ==> !g.intruded && now <= g.renewed + (BRIEF - 1) * g.idle
                  && forall s :: s in g.saves ==> s.at < s.renewed + LOCK_TTL)
  }

  // ---------------------------------------------------------------- one more call

  predicate Renews(g: Guard, token: RunLock.Token, step: RunLock.Step)
    requires |g.worlds| == |g.calls| + 1
  {
    var w := g.worlds[|g.calls|];
    step.Refresh? && step.token == token && RunLock.HeldBy(w.lock, w.now, token)
  }

  function Went(g: Guard, token: RunLock.Token, step: RunLock.Step): Guard
    requires |g.worlds| == |g.calls| + 1
  {
    g.(renewed := if Renews(g, token, step) then g.worlds[|g.calls|].now else g.renewed,
       idle := if step.Tick? then g.idle + 1 else if Renews(g, token, step) then 0 else g.idle,
       intruded := g.intruded || IsForeign(step, token),
       worlds := g.worlds + [RunLock.Apply(g.worlds[|g.calls|], step)], calls := g.calls + [step])
  }

  lemma WentAlong(g: Guard, token: RunLock.Token, step: RunLock.Step, now: int, lock: Option<RunLock.Lock>)
    requires Along(g, now, lock) && RunLock.Enabled(g.worlds[|g.calls|], step)
    ensures var t := RunLock.Apply(g.worlds[|g.calls|], step); Along(Went(g, token, step), t.now, t.lock)
  {
    hide RunLock.Apply, RunLock.Enabled;
    var h := Went(g, token, step);
    forall i | 0 <= i < |h.calls|
      ensures RunLock.Enabled(h.worlds[i], h.calls[i]) && h.worlds[i + 1] == RunLock.Apply(h.worlds[i], h.calls[i])
    {
      if i < |g.calls| {
        assert h.calls[i] == g.calls[i];
      }
    }
  }

  lemma WentDisciplined(g: Guard, step: RunLock.Step, token: RunLock.Token)
    requires Disciplined(g, token)
    requires IsForeign(step, token) ==>
               RunLock.HeldBy(g.worlds[|g.calls|].lock, g.worlds[|g.calls|].now, step.token)
    ensures Disciplined(Went(g, token, step), token)
  {
    hide RunLock.Apply;
    var h := Went(g, token, step);
    forall m | 0 <= m < |h.calls| && IsForeign(h.calls[m], token)
      ensures RunLock.Live(h.worlds, m, h.calls[m].token)
    {
      if m < |g.calls| {
        assert RunLock.Live(g.worlds, m, g.calls[m].token);
      }
    }
    assert h.calls[|g.calls|] == step;
    assert forall m :: 0 <= m < |g.calls| ==> h.calls[m] == g.calls[m];
  }

  lemma WentTells(g: Guard, step: RunLock.Step, token: RunLock.Token)
    requires SavesTell(g, token) && |g.worlds| == |g.calls| + 1
    ensures SavesTell(Went(g, token, step), token)
  {
    hide RunLock.Apply;
    var h := Went(g, token, step);
    forall s | s in h.saves
      ensures Tells(h, token, s)
    {
      assert Tells(g, token, s);
    }
  }

  /** One more save. */
  function Saved(g: Guard, token: RunLock.Token, kind: Kind, at: int): Guard
    requires |g.worlds| == |g.calls| + 1
  {
    var h := Went(g, token, RunLock.Write(token));
    h.(saves := h.saves + [Save(kind, at, g.renewed, |g.calls|)])
  }

  lemma SavedTells(g: Guard, token: RunLock.Token, kind: Kind, now: int, lock: Option<RunLock.Lock>)
    requires SavesTell(g, token) && Along(g, now, lock) && Holding(g, token, now, lock)
    requires Prompt(kind) ==> g.renewed == now
    ensures SavesTell(Saved(g, token, kind, now), token)
  {
    hide RunLock.Apply, RunLock.IsRun;
    LengthOf(g, now, lock);
    WentTells(g, RunLock.Write(token), token);
    var h := Saved(g, token, kind, now);
    forall s | s in h.saves
      ensures Tells(h, token, s)
    {
      if s in g.saves {
        assert Tells(Went(g, token, RunLock.Write(token)), token, s);
      }
    }
  }

  /** The list of saves matters to `SavesTell` and `Timely` only. */
  lemma SavedKeeps(g: Guard, token: RunLock.Token, kind: Kind, now: int, lock: Option<RunLock.Lock>,
                   stranger: nat -> Option<RunLock.Token>, turn: nat)
    requires Along(g, now, lock) && Disciplined(g, token) && Drawn(g, token, stranger, turn)
    ensures var h := Saved(g, token, kind, now);
            Along(h, now, lock) && Disciplined(h, token) && Drawn(h, token, stranger, turn)
  {
    var step, h := RunLock.Write(token), Saved(g, token, kind, now);
    WentAlong(g, token, step, now, lock);
    WentDisciplined(g, step, token);
    DrawnNext(g, token, step, stranger, turn, turn);
    assert h.worlds == Went(g, token, step).worlds && h.calls == Went(g, token, step).calls;
  }

  lemma LengthOf(g: Guard, now: int, lock: Option<RunLock.Lock>)
    requires Along(g, now, lock)
    ensures |g.worlds| == |g.calls| + 1
  {
  }

  lemma DrawnNext(g: Guard, token: RunLock.Token, step: RunLock.Step, stranger: nat -> Option<RunLock.Token>,
                  turn: nat, later: nat)
    requires Drawn(g, token, stranger, turn) && turn <= later
    requires step.Acquire? ==> stranger(turn) == Some(step.token) && turn < later
    ensures Drawn(Went(g, token, step), token, stranger, later)
  {
  }

  lemma DrawnLater(g: Guard, token: RunLock.Token, stranger: nat -> Option<RunLock.Token>, turn: nat, later: nat)
    requires Drawn(g, token, stranger, turn) && turn <= later
    ensures Drawn(g, token, stranger, later)
  {
  }

  lemma NewToken(g: Guard, token: RunLock.Token, stranger: nat -> Option<RunLock.Token>, turn: nat)
    requires Fair(stranger, token) && Drawn(g, token, stranger, turn) && stranger(turn).Some?
    ensures RunLock.Enabled(g.worlds[|g.calls|], RunLock.Acquire(stranger(turn).value, LOCK_TTL))
    ensures stranger(turn).value != token
  {
  }

  function LockAfter(lock: Option<RunLock.Lock>, now: int, step: RunLock.Step): Option<RunLock.Lock> {
    RunLock.Apply(RunLock.World(now, lock, {}, 0), step).lock
  }

  /** One call, seen from everything but the expiry. */
  lemma WentKeeps(g: Guard, token: RunLock.Token, step: RunLock.Step, now: int, lock: Option<RunLock.Lock>)
    requires Along(g, now, lock) && Disciplined(g, token) && SavesTell(g, token) && !step.Tick?
    requires |g.worlds| == |g.calls| + 1 && RunLock.Enabled(g.worlds[|g.calls|], step)
    requires IsForeign(step, token) ==> RunLock.HeldBy(lock, now, step.token)
    ensures var h := Went(g, token, step);
            Along(h, now, LockAfter(lock, now, step)) && Disciplined(h, token) && SavesTell(h, token)
  {
    hide RunLock.IsRun, Disciplined, SavesTell;
    WentAlong(g, token, step, now, lock);
    WentDisciplined(g, step, token);
    WentTells(g, step, token);
  }

  lemma RenewIs(g: Guard, token: RunLock.Token, now: int, lock: Option<RunLock.Lock>)
    requires Along(g, now, lock)
    ensures |g.worlds| == |g.calls| + 1
    ensures var step := RunLock.Refresh(token, LOCK_TTL);
            && RunLock.Enabled(g.worlds[|g.calls|], step)
            && (Renews(g, token, step) <==> RunLock.HeldBy(lock, now, token))
            && g.worlds[|g.calls|].now == now
  {
  }

  // ---------------------------------------------------------------- the first call

  function Acquired(token: RunLock.Token, now: int): Guard {
    var w := RunLock.World(now, None, {}, 0);
    var step := RunLock.Acquire(token, LOCK_TTL);
    Guard(now, 0, false, [], [w, RunLock.Apply(w, step)], [step])
  }

  lemma AcquiredKeeps(token: RunLock.Token, now: int, stranger: nat -> Option<RunLock.Token>, turn: nat)
    ensures var g := Acquired(token, now);
            && Along(g, now, Some(RunLock.Lock(token, now + LOCK_TTL))) && Disciplined(g, token)
            && Drawn(g, token, stranger, turn) && SavesTell(g, token)
  {
  }

  lemma NoSaves(g: Guard, token: RunLock.Token)
    ensures g.saves == [] ==> SavesTell(g, token)
  {
  }

  // ---------------------------------------------------------------- no lost update

  /** From its acquire to its last save under the lock, the run alone wrote the conversation. */
  lemma SavedAlone(g: Guard, token: RunLock.Token, now: int, lock: Option<RunLock.Lock>, s: Save, m: nat)
    requires Along(g, now, lock) && Disciplined(g, token) && SavesTell(g, token)
    requires s in g.saves && s.at < s.renewed + LOCK_TTL
    requires 0 < m < s.step && g.calls[m].Write?
    ensures g.calls[m] == RunLock.Write(token)
  {
    assert Tells(g, token, s);
    assert g.calls[m].token != token ==> IsForeign(g.calls[m], token);
    if g.calls[m].token != token {
      RunLock.NoForeignWrite(g.worlds, g.calls, 0, m, s.step, token);
      assert false;
    }
  }

  /** A save that follows another run's write is late, so it is none of the prompt kinds. */
  lemma OnlyLateSavesOverwrite(g: Guard, token: RunLock.Token, now: int, lock: Option<RunLock.Lock>, s: Save, m: nat)
    requires Along(g, now, lock) && Disciplined(g, token) && SavesTell(g, token)
    requires s in g.saves && m < s.step && s.step < |g.calls| && IsForeign(g.calls[m], token)
    ensures s.at >= s.renewed + LOCK_TTL && !Prompt(s.kind)
  {
    assert Tells(g, token, s);
    if s.at < s.renewed + LOCK_TTL {
      SavedAlone(g, token, now, lock, s, m);
    }
  }

  /** Whoever else wrote the conversation did so after every save of the run. */
  ghost predicate AloneWhileSaving(g: Guard, token: RunLock.Token) {
    forall s, m :: s in g.saves && 0 <= m < |g.calls| && IsForeign(g.calls[m], token) ==> s.step < m
  }

  /** Nobody has got in, and no save follows: so it stays. */
  lemma NoMoreSaves(g: Guard, h: Guard, token: RunLock.Token)
    requires Disciplined(g, token) && SavesTell(g, token) && !g.intruded
    requires h.saves == g.saves && g.calls <= h.calls
    ensures AloneWhileSaving(h, token)
  {
    assert forall m :: 0 <= m < |g.calls| ==> h.calls[m] == g.calls[m] && !IsForeign(g.calls[m], token);
    forall s, m | s in h.saves && 0 <= m < |h.calls| && IsForeign(h.calls[m], token)
      ensures s.step < m
    {
      assert Tells(g, token, s);
    }
  }

  lemma Lengthen(g: Guard, step: RunLock.Step, token: RunLock.Token)
    requires |g.worlds| == |g.calls| + 1 && SavesTell(g, token) && !IsForeign(step, token)
    ensures AloneWhileSaving(g, token) ==> AloneWhileSaving(Went(g, token, step), token)
  {
  }
}

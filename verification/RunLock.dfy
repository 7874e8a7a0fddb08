/**
 The run lock of one conversation: a Redis key with an expiry, taken with SET NX EX and
 refreshed or released by a script that compares the token first.
 */
module RunLock {
  import opened Wrappers

  type Token = nat

  const MIN_TTL := 30

  /** The key's last write. It is there only until it expires. */
  datatype Lock = Lock(token: Token, expires: int)

  predicate HeldBy(lock: Option<Lock>, now: int, token: Token) {
    lock.Some? && now < lock.value.expires && lock.value.token == token
  }

  predicate Free(lock: Option<Lock>, now: int) {
    lock.None? || lock.value.expires <= now
  }

  function Expiry(now: int, ttl: int): int {
    now + if ttl < MIN_TTL then MIN_TTL else ttl
  }

  function Acquired(lock: Option<Lock>, now: int, token: Token, ttl: int): Option<Lock> {
    if Free(lock, now) then Some(Lock(token, Expiry(now, ttl))) else lock
  }

  function Refreshed(lock: Option<Lock>, now: int, token: Token, ttl: int): Option<Lock> {
    if HeldBy(lock, now, token) then Some(Lock(token, Expiry(now, ttl))) else lock
  }

  function Released(lock: Option<Lock>, now: int, token: Token): Option<Lock> {
    if HeldBy(lock, now, token) then None else lock
  }

  // ---------------------------------------------------------------- runs

  /** `used` is bookkeeping of the proof: the tokens drawn so far. `stored` stands for the
      conversation, whose every write makes a new revision. */
  datatype World = World(now: int, lock: Option<Lock>, used: set<Token>, revision: nat)

  datatype Step =
    | Tick(seconds: nat)
    | Acquire(token: Token, ttl: int)
    | Refresh(token: Token, ttl: int)
    | Release(token: Token)
    | Write(token: Token)

  ghost predicate Enabled(s: World, step: Step) {
    match step
    case Acquire(token, _) => token !in s.used  // a UUID, drawn for this call
    case _ => true
  }

  function Apply(s: World, step: Step): World {
    match step
    case Tick(seconds) => s.(now := s.now + seconds)
    case Acquire(token, ttl) =>
      s.(lock := Acquired(s.lock, s.now, token, ttl), used := s.used + {token})
    case Refresh(token, ttl) => s.(lock := Refreshed(s.lock, s.now, token, ttl))
    case Release(token) => s.(lock := Released(s.lock, s.now, token))
    case Write(_) => s.(revision := s.revision + 1)
  }

  ghost predicate IsRun(states: seq<World>, steps: seq<Step>) {
    && |states| == |steps| + 1
    && states[0].lock == None && states[0].used == {}
    && (forall i {:trigger steps[i]} :: 0 <= i < |steps| ==>
          Enabled(states[i], steps[i]) && states[i + 1] == Apply(states[i], steps[i]))
  }

  /** The token is live in state `i`. */
  ghost predicate Live(states: seq<World>, i: nat, token: Token)
    requires i < |states|
  {
    HeldBy(states[i].lock, states[i].now, token)
  }

  /** What a worker knows from the answers it got: its acquire or refresh number `j` was
      granted, for a time that is not over in state `i`, and it called nothing since. */
  ghost predicate Granted(states: seq<World>, steps: seq<Step>, j: nat, i: nat, token: Token)
    requires |states| == |steps| + 1 && i < |states|
  {
    && j < i
    && ((steps[j] == Acquire(token, TtlOf(steps[j])) && Free(states[j].lock, states[j].now))
        || (steps[j] == Refresh(token, TtlOf(steps[j])) && Live(states, j, token)))
    && states[i].now < Expiry(states[j].now, TtlOf(steps[j]))
    && (forall m :: j < m < i ==> !CallsLock(steps[m], token))
  }

  function TtlOf(step: Step): int {
    match step
    case Acquire(_, ttl) => ttl
    case Refresh(_, ttl) => ttl
    case _ => 0
  }

  predicate CallsLock(step: Step, token: Token) {
    match step
    case Acquire(t, _) => t == token
    case Refresh(t, _) => t == token
    case Release(t) => t == token
    case _ => false
  }

  lemma {:induction false} TokensAreUsed(states: seq<World>, steps: seq<Step>, i: nat)
    requires IsRun(states, steps) && i < |states|
    ensures states[i].lock.Some? ==> states[i].lock.value.token in states[i].used
  {
    if i > 0 {
      TokensAreUsed(states, steps, i - 1);
      assert Enabled(states[i - 1], steps[i - 1]);
    }
  }

  lemma {:induction false} UsedGrows(states: seq<World>, steps: seq<Step>, i: nat, j: nat)
    requires IsRun(states, steps) && i <= j < |states|
    ensures states[i].used <= states[j].used && states[i].now <= states[j].now
  {
    if i < j {
      UsedGrows(states, steps, i, j - 1);
      assert Enabled(states[j - 1], steps[j - 1]);
    }
  }

  /** A granted call keeps the key, with the very expiry that was granted. */
  lemma {:induction false} GrantedIsLive(states: seq<World>, steps: seq<Step>, j: nat, i: nat, token: Token)
    requires IsRun(states, steps) && i < |states| && Granted(states, steps, j, i, token)
    ensures Live(states, i, token)
    ensures states[i].lock.value.expires == Expiry(states[j].now, TtlOf(steps[j]))
  {
    assert Enabled(states[i - 1], steps[i - 1]);
    if j < i - 1 {
      UsedGrows(states, steps, i - 1, i);
      GrantedIsLive(states, steps, j, i - 1, token);
      assert !CallsLock(steps[i - 1], token);
    }
  }

  /** A live token was granted by some call of its own, and nothing of its own followed. */
  lemma {:induction false} LiveWasGranted(states: seq<World>, steps: seq<Step>, i: nat, token: Token)
    returns (j: nat)
    requires IsRun(states, steps) && i < |states| && Live(states, i, token)
    ensures Granted(states, steps, j, i, token)
    ensures states[i].lock.value.expires == Expiry(states[j].now, TtlOf(steps[j]))
  {
    var s, step := states[i - 1], steps[i - 1];
    assert Enabled(s, step);
    if CallsLock(step, token) {
      j := i - 1;
      if step.Acquire? { TokensAreUsed(states, steps, i - 1); }
    } else {
      UsedGrows(states, steps, i - 1, i);
      j := LiveWasGranted(states, steps, i - 1, token);
    }
  }

  /** Mutual exclusion, in terms of what the workers were told. */
  lemma AtMostOneGranted(states: seq<World>, steps: seq<Step>, i: nat, a: nat, s: Token, b: nat, t: Token)
    requires IsRun(states, steps) && i < |states|
    requires Granted(states, steps, a, i, s) && Granted(states, steps, b, i, t)
    ensures s == t
  {
    GrantedIsLive(states, steps, a, i, s);
    GrantedIsLive(states, steps, b, i, t);
  }

  /** While a grant lasts and its holder does not call, nobody else's acquire succeeds. */
  lemma NobodyElseAcquires(states: seq<World>, steps: seq<Step>, j: nat, i: nat, token: Token)
    requires IsRun(states, steps) && i < |steps| && Granted(states, steps, j, i, token)
    requires steps[i].Acquire?
    ensures steps[i].token != token
    ensures states[i + 1].lock == states[i].lock && Live(states, i + 1, token)
  {
    GrantedIsLive(states, steps, j, i, token);
    TokensAreUsed(states, steps, i);
    assert Enabled(states[i], steps[i]);
  }

  /** A worker that was not granted the lock, or whose grant ran out, changes nothing by
      releasing or refreshing. */
  lemma LateCallsChangeNothing(states: seq<World>, steps: seq<Step>, i: nat)
    requires IsRun(states, steps) && i < |steps|
    requires steps[i].Refresh? || steps[i].Release?
    requires forall j: nat :: j < i ==> !Granted(states, steps, j, i, steps[i].token)
    ensures states[i + 1] == states[i]
  {
    assert Enabled(states[i], steps[i]);
    if Live(states, i, steps[i].token) {
      var j := LiveWasGranted(states, steps, i, steps[i].token);
      assert false;
    }
  }

  /** Once lost, a token never comes back. */
  lemma {:induction false} LiveThroughout(states: seq<World>, steps: seq<Step>, a: nat, m: nat, i: nat, token: Token)
    requires IsRun(states, steps) && a < m <= i < |states|
    requires steps[a].Acquire? && steps[a].token == token
    requires Live(states, i, token)
    ensures Live(states, m, token)
    decreases i - m
  {
    if m < i {
      LiveThroughout(states, steps, a, m + 1, i, token);
      assert Enabled(states[m], steps[m]) && Enabled(states[a], steps[a]);
      UsedGrows(states, steps, a + 1, m);
      assert token in states[a + 1].used;
    }
  }

  /** No lost update: if every write between is made by a token that is live at that
      moment, then from the moment a run has acquired the lock until a moment when it
      still holds it, the conversation is written by that run alone. */
  lemma NoForeignWrite(states: seq<World>, steps: seq<Step>, a: nat, m: nat, i: nat, token: Token)
    requires IsRun(states, steps) && a < m < i < |states|
    requires steps[a].Acquire? && steps[a].token == token && Live(states, i, token)
    requires steps[m].Write? && Live(states, m, steps[m].token)
    ensures steps[m].token == token
  {
    LiveThroughout(states, steps, a, m, i, token);
  }

  /** So a run that reads at `r` and writes at `i`, and wrote nothing itself in between,
      overwrites exactly the revision it read. */
  lemma {:induction false} ReadModifyWrite(states: seq<World>, steps: seq<Step>, a: nat, r: nat, i: nat, token: Token)
    requires IsRun(states, steps) && a < r <= i < |states|
    requires steps[a].Acquire? && steps[a].token == token && Live(states, i, token)
    requires forall m :: r <= m < i && steps[m].Write? ==>
               steps[m].token != token && Live(states, m, steps[m].token)
    ensures states[r].revision == states[i].revision
    decreases i - r
  {
    if r < i {
      assert Enabled(states[r], steps[r]);
      if steps[r].Write? {
        NoForeignWrite(states, steps, a, r, i, token);
      }
      ReadModifyWrite(states, steps, a, r + 1, i, token);
    }
  }

  /** The condition on the writers is needed: run 2 takes the lock that run 1 let expire, and
      reads; run 1 writes late; run 2, which still holds the lock, overwrites a revision it
      never read. */
  lemma ExpiredWriterLosesUpdate() returns (states: seq<World>, steps: seq<Step>)
    ensures IsRun(states, steps) && |steps| == 5
    ensures steps[2] == Acquire(2, 30) && Live(states, 3, 2)
    ensures steps[3] == Write(1) && !Live(states, 3, 1)
    ensures steps[4] == Write(2) && Live(states, 4, 2)
    ensures states[3].revision != states[4].revision
  {
    steps := [Acquire(1, 600), Tick(600), Acquire(2, 30), Write(1), Write(2)];
    var s0 := World(0, None, {}, 0);
    var s1 := Apply(s0, steps[0]);
    var s2 := Apply(s1, steps[1]);
    var s3 := Apply(s2, steps[2]);
    var s4 := Apply(s3, steps[3]);
    states := [s0, s1, s2, s3, s4, Apply(s4, steps[4])];
  }
}

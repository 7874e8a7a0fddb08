/**
 The agent loop. The provider, the tools, the passing of time and every failure are an
 arbitrary oracle. Whenever time passes, another run may find the lock free, take it, and
 write the conversation.
 */
module AgentLoop {
  import opened Wrappers
  import opened Transcript
  import opened AgentStorage
  import opened AgentGuard
  import Context
  import RunLock

  /** Stands for the JSON text that answers a call of a tool that failed. */
  const TOOL_FAILED := "tool failed"

  /** What a tool does. */
  datatype ToolOutcome =
    | Fails
    | Returns(text: string)
    | ReturnsRows(id: ResultId, kind: string, rows: seq<string>, payload: string)
    | Drafts(text: string)
    | Diagnoses(progress: seq<Event>, report: Option<string>)   // no report: it raised in the end

  datatype Reply = Reply(content: string, calls: seq<CallId>, tokens: nat)

  /** What the summarizer answers: it raises, it is cut off, or it returns a text. */
  datatype Summary = Raises | CutOff(tokens: nat) | Text(text: string, tokens: nat)

  /** The answers of the outside world to the n-th interaction of a run. */
  datatype Oracle = Oracle(
    delay: nat -> nat,                            // seconds that pass before it
    deltas: nat -> nat,                           // fragments the provider streams
    stops: nat -> bool,                           // it raises, or the client hangs up
    reply: nat -> Reply,
    strip: string -> string,                      // a final answer without outer white space
    tool: nat -> ToolOutcome,
    summary: nat -> Summary,
    stranger: nat -> Option<RunLock.Token>,       // another run tries the lock, with this token
    foreign: nat -> Conversation,                 // what it writes if it gets the lock
    leaves: nat -> bool,                          // whether it is through by then
    reserve: nat -> string,                       // system prompt, tools and state as JSON
    diagnosis: nat -> string,                     // the latest diagnosis, for the prompt
    json: Context.Json)                           // how texts and messages become JSON

  /** Why a run ends without an answer: it never began, something raised or the client hung
      up, the lease was over or the conversation expired, the budget was exceeded, or the
      steps were used up. */
  datatype Why = NotAdmitted | Stopped | Overtaken | OverBudget | OutOfSteps

  datatype Outcome = Completed | Failed

  /** A request that went to the provider, with its estimate: for an answer, with the runtime
      reserve then and the interaction that answers it, or for a summary of old messages. */
  datatype Sent = ForAnswer(estimate: nat, reserve: nat, turn: nat) | ForSummary(estimate: nat)

  /** Where a message comes from: the question, a reply of the provider, or a tool's outcome
      with whether what it stores or reports went through. */
  datatype Origin = Asked | Said(turn: nat) | Ran(turn: nat, done: bool)

  // ---------------------------------------------------------------- accounting for a run

  /** What a run did to its conversation, in order, and what it counted. */
  datatype Log = Log(appended: seq<Message>, origins: seq<Origin>, recorded: seq<Event>, produced: seq<ResultId>,
                     tokens: nat, tries: nat, accepted: nat)

  const NOTHING := Log([], [], [], [], 0, 0, 0)

  ghost predicate IsCut(ms: seq<Message>, cut: nat) {
    cut <= |ms| && (cut == 0 || (cut < |ms| && ms[cut].User?))
  }

  /** All messages are there, except rounds that compression cut off the front. */
  ghost predicate MessagesKept(first: seq<Message>, appended: seq<Message>, ms: seq<Message>) {
    exists cut: nat :: IsCut(first + appended, cut) && ms == (first + appended)[cut..]
  }

  ghost predicate EventsKept(first: seq<Event>, recorded: seq<Event>, es: seq<Event>) {
    es == if recorded == [] then first else Recent(first + recorded)
  }

  /** Each request for a summary is counted once, as accepted or as failed; tokens add up. */
  ghost predicate Counted(was: Metrics, m: Metrics, log: Log) {
    && log.accepted <= log.tries
    && m.attempts == was.attempts + log.tries && m.accepted == was.accepted + log.accepted
    && m.failures == was.failures + (log.tries - log.accepted) && m.tokens == was.tokens + log.tokens
  }

  /** `c` is what `first` becomes when everything in the log is kept. */
  ghost predicate Accounts(first: Conversation, c: Conversation, log: Log) {
    && c.owner == first.owner && c.id == first.id
    && MessagesKept(first.messages, log.appended, c.messages)
    && EventsKept(first.events, log.recorded, c.events)
    && c.state.lastResult == (if log.produced == [] then first.state.lastResult
                              else Some(log.produced[|log.produced| - 1]))
    && Counted(first.state.metrics, c.state.metrics, log)
  }

  lemma AccountsAtFirst(first: Conversation)
    ensures Accounts(first, first, NOTHING)
  {
    assert first.messages + [] == first.messages;
    assert IsCut(first.messages + [], 0);
    assert (first.messages + [])[0..] == first.messages;
  }

  lemma OneMoreMessage(first: seq<Message>, appended: seq<Message>, ms: seq<Message>, m: Message)
    requires MessagesKept(first, appended, ms)
    ensures MessagesKept(first, appended + [m], ms + [m])
  {
    var full := first + appended;
    var cut: nat :| IsCut(full, cut) && ms == full[cut..];
    assert first + (appended + [m]) == full + [m];
    assert (full + [m])[cut..] == full[cut..] + [m];
    assert IsCut(full + [m], cut);
  }

  lemma OneMoreCut(first: seq<Message>, appended: seq<Message>, ms: seq<Message>, cut: nat)
    requires MessagesKept(first, appended, ms) && cut < |ms| && ms[cut].User?
    ensures MessagesKept(first, appended, ms[cut..])
  {
    var full := first + appended;
    var before: nat :| IsCut(full, before) && ms == full[before..];
    assert full[before..][cut..] == full[before + cut..];
    assert IsCut(full, before + cut);
  }

  function CutConversation(c: Conversation, cut: nat, summary: string, tokens: nat): Conversation
    requires cut <= |c.messages|
  {
    var m := c.state.metrics;
    c.(messages := c.messages[cut..], summary := summary,
       state := c.state.(metrics := m.(attempts := m.attempts + 1, accepted := m.accepted + 1,
                                       tokens := m.tokens + tokens)))
  }

  lemma AccountsCut(first: Conversation, c: Conversation, log: Log, cut: nat, summary: string, tokens: nat, at: int)
    requires Accounts(first, c, log) && WellShaped(c.messages)
    requires cut < |c.messages| && c.messages[cut].User?
    ensures Accounts(first, CutConversation(c, cut, summary, tokens).(updatedAt := at),
                     log.(tries := log.tries + 1, accepted := log.accepted + 1, tokens := log.tokens + tokens))
    ensures ShapeOf(c.messages[cut..]) == ShapeOf(c.messages)
  {
    hide MessagesKept, EventsKept;
    CutKeepsShape(c.messages, cut);
    OneMoreCut(first.messages, log.appended, c.messages, cut);
  }

  lemma OneMoreEvent(first: seq<Event>, recorded: seq<Event>, es: seq<Event>, e: Event)
    requires EventsKept(first, recorded, es)
    ensures EventsKept(first, recorded + [e], Recent(es + [e]))
  {
    assert first + (recorded + [e]) == (first + recorded) + [e];
    if recorded == [] {
      assert first + [] == first;
    } else {
      RecentAppend(first + recorded, e);
    }
  }

  lemma MessageKeeps(first: Conversation, was: Conversation, log: Log, m: Message, origin: Origin, at: int)
    requires Accounts(first, was, log)
    ensures Accounts(first, was.(messages := was.messages + [m], updatedAt := at),
                     log.(appended := log.appended + [m], origins := log.origins + [origin]))
    ensures ShapeOf(was.messages + [m]) == Next(ShapeOf(was.messages), m)
  {
    hide MessagesKept, EventsKept, ShapeOf;
    OneMoreMessage(first.messages, log.appended, was.messages, m);
    ShapeSnoc(was.messages, m);
  }

  lemma EventKeeps(first: Conversation, was: Conversation, log: Log, e: Event, at: int)
    requires Accounts(first, was, log)
    ensures Accounts(first, was.(events := Recent(was.events + [e]), updatedAt := at),
                     log.(recorded := log.recorded + [e]))
  {
    hide MessagesKept, EventsKept, Recent;
    OneMoreEvent(first.events, log.recorded, was.events, e);
  }

  /** Telemetry without a cut: more tokens, and perhaps a failed request for a summary. */
  function Telemetered(c: Conversation, failed: bool, tokens: nat): Conversation {
    var m, n := c.state.metrics, if failed then 1 else 0;
    c.(state := c.state.(metrics := m.(attempts := m.attempts + n, failures := m.failures + n,
                                       tokens := m.tokens + tokens)))
  }

  lemma MetricsKeep(first: Conversation, was: Conversation, log: Log, failed: bool, tokens: nat, at: int)
    requires Accounts(first, was, log)
    ensures Accounts(first, Telemetered(was, failed, tokens).(updatedAt := at),
                     log.(tries := log.tries + (if failed then 1 else 0), tokens := log.tokens + tokens))
  {
    hide MessagesKept, EventsKept;
  }

  lemma RowsKeep(first: Conversation, was: Conversation, log: Log, result: ResultId, at: int)
    requires Accounts(first, was, log)
    ensures Accounts(first, was.(state := was.state.(lastResult := Some(result)), updatedAt := at),
                     log.(produced := log.produced + [result]))
  {
    hide MessagesKept, EventsKept;
  }

  /** The run's first look at its conversation, the rest of the store then, and the question. */
  datatype Begin = Begin(first: Conversation, others: Conversations, question: string)

  ghost predicate OthersKept(before: Conversations, after: Conversations, k: ConvKey) {
    forall j :: j != k ==> (j in after <==> j in before) && (j in after ==> after[j] == before[j])
  }

  lemma OthersAtFirst(cs: Conversations, k: ConvKey)
    ensures OthersKept(cs, cs, k)
  {
  }

  lemma OthersAfterPut(before: Conversations, after: Conversations, k: ConvKey, c: Cell<Conversation>)
    requires OthersKept(before, after, k)
    ensures OthersKept(before, after[k := c], k)
  {
  }

  lemma OthersTransitive(a: Conversations, b: Conversations, c: Conversations, k: ConvKey)
    requires OthersKept(a, b, k) && OthersKept(b, c, k)
    ensures OthersKept(a, c, k)
  {
  }

  /** Two events of this call, and between them what was recorded: this, or some of it. */
  ghost predicate Around(before: seq<Event>, after: seq<Event>, call: CallId, recorded: Option<seq<Event>>) {
    exists during ::
      && (recorded.Some? ==> during == recorded.value)
      && after == before + [Event("tool.started", call)] + during + [Event("tool.completed", call)]
  }

  lemma IsAround(before: seq<Event>, started: seq<Event>, done: seq<Event>, after: seq<Event>, call: CallId,
                 recorded: Option<seq<Event>>)
    requires started == before + [Event("tool.started", call)] && started <= done
    requires recorded.Some? ==> done == started + recorded.value
    requires after == done + [Event("tool.completed", call)]
    ensures Around(before, after, call, recorded)
  {
    assert done == started + done[|started|..];
  }

  /** What a tool answers with: what it returns, or that it failed, or that what it had to
      store or report did not go through. */
  ghost predicate IsAnswer(outcome: ToolOutcome, done: bool, text: string) {
    match outcome
    case Fails => text == "tool failed"
    case Returns(t) => text == t
    case ReturnsRows(_, _, _, payload) => text == if done then payload else "tool failed"
    case Drafts(t) => text == if done then t else "tool failed"
    case Diagnoses(_, report) => text == if done && report.Some? then report.value else "tool failed"
  }

  /** What a tool records when all goes through. */
  function Records(outcome: ToolOutcome): seq<Event> {
    match outcome
    case Drafts(t) => [Event("autonomy.draft_created", t)]
    case Diagnoses(progress, _) => progress
    case _ => []
  }

  function TokensOf(s: Summary): nat {
    if s.Raises? then 0 else s.tokens
  }

  function ReplyOf(s: Summary): Option<string> {
    if s.Text? then Some(s.text) else None
  }

  // ---------------------------------------------------------------- the runner

  /** One run of the agent on one conversation. */
  class AgentRun {
    const store: AgentStore
    const context: Context.ContextManager
    const oracle: Oracle
    const maxSteps: nat
    const owner: string
    const id: ConvId
    const token: RunLock.Token
    var turn: nat
    ghost var log: Log
    ghost var sent: seq<Sent>
    ghost var guard: Guard

    constructor (store: AgentStore, context: Context.ContextManager, oracle: Oracle, steps: int,
                 owner: string, id: ConvId, token: RunLock.Token)
      ensures this.store == store && this.context == context && this.oracle == oracle
      ensures this.owner == owner && this.id == id && this.token == token
      ensures maxSteps == if steps < 1 then 1 else if steps > 8 then 8 else steps
    {
      this.store, this.context, this.oracle := store, context, oracle;
      this.owner, this.id, this.token := owner, id, token;
      maxSteps := Context.Max(1, Context.Min(8, steps));
      turn := 0;
      log, sent, guard := NOTHING, [], Guard(0, 0, false, [], [], []);
    }

    /** Every wait is shorter than a quarter of the lease. */
    ghost predicate Brief() {
      forall t :: oracle.delay(t) < BRIEF
    }

    /** The guard tells what happened to the lock. */
    ghost predicate Followed()
      reads this`guard, this`turn, store`now, store`locks
    {
      && Fair(oracle.stranger, token) && Drawn(guard, token, oracle.stranger, turn)
      && Along(guard, store.now, store.LockOf(owner, id)) && Disciplined(guard, token)
      && Holding(guard, token, store.now, store.LockOf(owner, id))
      && SavesTell(guard, token)
    }

    /** The same, with at most four waits since the last renewal. */
    ghost predicate Guarded()
      reads this`guard, this`turn, store`now, store`locks
    {
      Followed() && Timely(guard, Brief(), store.now)
    }

    /** No time has passed since the lock was renewed. */
    ghost predicate JustRenewed()
      reads this`guard, store`now
    {
      guard.renewed == store.now && guard.idle == 0
    }

    /** Unless another run has got in: the stored conversation, if it has not expired, is the
        first one plus the log, in the given shape. No other conversation has changed. */
    ghost predicate Kept(b: Begin, shape: Shape)
      reads this`log, this`guard, this`turn, store
    {
      && store.Valid() && b.first.owner == owner && b.first.id == id
      && OthersKept(b.others, store.conversations, ConvKey(owner, id))
      && Guarded() && Traced(log, b.question)
      && (!guard.intruded && store.Stored(owner, id).Some? ==>
            StoredIs(b, shape, store.Stored(owner, id).value))
    }

    /** Every appended message is what its origin says. */
    ghost predicate Traced(l: Log, question: string) {
      && |l.origins| == |l.appended|
      && forall i :: 0 <= i < |l.appended| ==> IsFrom(l.appended[i], l.origins[i], question)
    }

    lemma TracedNext(l: Log, m: Message, origin: Origin, question: string)
      requires Traced(l, question) && IsFrom(m, origin, question)
      ensures Traced(l.(appended := l.appended + [m], origins := l.origins + [origin]), question)
    {
    }

    lemma TracedSame(l: Log, later: Log, question: string)
      requires Traced(l, question) && later.appended == l.appended && later.origins == l.origins
      ensures Traced(later, question)
    {
    }

    ghost predicate IsFrom(m: Message, origin: Origin, question: string) {
      match origin
      case Asked => m == User(question)
      case Said(t) =>
        var reply := oracle.reply(t);
        m == Assistant(if reply.calls == [] then oracle.strip(reply.content) else reply.content, reply.calls)
      case Ran(t, done) => m.Tool? && IsAnswer(oracle.tool(t), done, m.content)
    }

    ghost predicate StoredIs(b: Begin, shape: Shape, c: Conversation)
      reads this`log
    {
      && Accounts(b.first, c, log)
      && ShapeOf(c.messages) == shape && !shape.Bad?
    }

    /** The same, whatever the shape is. */
    ghost predicate KeptShaped(b: Begin)
      reads this`log, this`guard, this`turn, store
    {
      exists shape :: Kept(b, shape)
    }

    /** The run's own copy is what is stored, unless that has expired or another run has got
        in. */
    ghost predicate InSync(b: Begin, shape: Shape, c: Conversation)
      reads this`log, this`guard, this`turn, store
    {
      && Kept(b, shape) && c.owner == owner && c.id == id
      && (!guard.intruded ==>
            && StoredIs(b, shape, c)
            && (store.Stored(owner, id).Some? ==> store.Stored(owner, id) == Some(c)))
    }

    /** Only requests for answers within the budget were sent. */
    ghost predicate Budgeted()
      reads this`sent, context
    {
      forall s :: s in sent && s.ForAnswer? ==>
        s.estimate <= Context.Max(128, context.contextWindow - context.outputReserve
                                       - context.safetyReserve - s.reserve)
    }

    /** A request for an answer fits the window, as long as the runtime reserve left the
        minimum of 128 tokens. */
    lemma AnswerRequestsFit(s: Sent)
      requires context.Valid() && Budgeted() && s in sent && s.ForAnswer?
      requires s.reserve <= context.contextWindow - context.outputReserve - context.safetyReserve - 128
      ensures s.estimate + s.reserve + context.outputReserve + context.safetyReserve <= context.contextWindow
    {
    }

    /** The request for a summary is sent unchecked. It fits the window if and only if the
        history, less its kept rounds and with the spaces of its old messages, leaves room for
        the fixed text. */
    lemma SummaryRequestFitsIff(c: Conversation)
      requires context.Valid() && Asks(c)
      ensures |RequestFor(c)| <= context.contextWindow
              <==> Context.OldPart(oracle.json, c.messages, CutOf(c).value, c.summary)
                   <= context.contextWindow - |oracle.json.instruction| - Context.FRAME
    {
      Context.EstimateIsLength(RequestFor(c));
      Context.SummaryFitsIff(context, oracle.json, c.messages, c.summary);
    }

    // -------------------------------------------------------------- the lock

    method PassTime()
      requires store.Valid() && Followed()
      modifies this`guard, store`now
      ensures store.Valid() && Followed()
      ensures old(Guarded()) && old(guard).idle <= 3 ==> Guarded()
      ensures guard.idle == old(guard).idle + 1 && guard.intruded == old(guard).intruded
      ensures guard.renewed == old(guard).renewed && store.now >= old(store.now)
      ensures guard.saves == old(guard).saves && old(guard).calls <= guard.calls
    {
      hide RunLock.IsRun, Indexed, ResultsIndexed, Disciplined, SavesTell, Drawn, Fair;
      ghost var step := RunLock.Tick(oracle.delay(turn));
      ghost var lock := store.LockOf(owner, id);
      LengthOf(guard, store.now, lock);
      WentAlong(guard, token, step, store.now, lock);
      WentDisciplined(guard, step, token);
      WentTells(guard, step, token);
      DrawnNext(guard, token, step, oracle.stranger, turn, turn);
      store.Tick(oracle.delay(turn));
      guard := Went(guard, token, step);
    }

    /** Another run comes with this interaction, when the lease is over and the conversation
        is still there. */
    ghost predicate GetsIn(t: nat, conversations: Conversations)
      reads this`guard, store`now
    {
      var k := ConvKey(owner, id);
      && oracle.stranger(t).Some? && store.now >= guard.renewed + LOCK_TTL
      && k in conversations && store.now < conversations[k].expires
    }

    /** Another run may try the lock now. It writes only if it gets it. */
    method Visit()
      requires store.Valid() && Followed()
      modifies this`turn, this`guard, store`locks, store`conversations, store`index
      ensures store.Valid() && Followed() && (old(Guarded()) ==> Guarded())
      ensures turn == old(turn) + 1 && guard.idle == old(guard).idle && guard.renewed == old(guard).renewed
      ensures OthersKept(old(store.conversations), store.conversations, ConvKey(owner, id))
      ensures !guard.intruded ==> !old(guard).intruded && store.conversations == old(store.conversations)
      ensures guard.intruded <==> old(guard).intruded || GetsIn(old(turn), old(store.conversations))
      ensures guard.saves == old(guard).saves && old(guard).calls <= guard.calls
    {
      hide RunLock.IsRun, RunLock.Enabled, Indexed, ResultsIndexed, Along, Disciplined, SavesTell, Drawn, Fair, OthersKept;
      OthersAtFirst(store.conversations, ConvKey(owner, id));
      LengthOf(guard, store.now, store.LockOf(owner, id));
      turn := turn + 1;
      DrawnLater(guard, token, oracle.stranger, turn - 1, turn);
      if oracle.stranger(turn - 1).Some? {
        var other := oracle.stranger(turn - 1).value;
        NewToken(guard, token, oracle.stranger, turn - 1);
        ghost var lock := store.LockOf(owner, id);
        var r := store.AcquireRunLock(owner, id, other, LOCK_TTL);
        if r.Success? {
          WentKeeps(guard, token, RunLock.Acquire(other, LOCK_TTL), store.now, lock);
          DrawnNext(guard, token, RunLock.Acquire(other, LOCK_TTL), oracle.stranger, turn - 1, turn);
          guard := Went(guard, token, RunLock.Acquire(other, LOCK_TTL));
          Intrude(other, oracle.foreign(turn - 1));
          if oracle.leaves(turn - 1) {
            Depart(other);
          }
        }
      }
    }

    method Intrude(other: RunLock.Token, c: Conversation)
      requires store.Valid() && other != token && RunLock.HeldBy(store.LockOf(owner, id), store.now, other)
      requires Drawn(guard, token, oracle.stranger, turn)
      requires Along(guard, store.now, store.LockOf(owner, id)) && Disciplined(guard, token) && SavesTell(guard, token)
      modifies this`guard, store`conversations, store`index
      ensures store.Valid() && Drawn(guard, token, oracle.stranger, turn)
      ensures Along(guard, store.now, store.LockOf(owner, id)) && Disciplined(guard, token) && SavesTell(guard, token)
      ensures guard.idle == old(guard).idle && guard.renewed == old(guard).renewed && guard.intruded
      ensures guard.saves == old(guard).saves && old(guard).calls <= guard.calls
      ensures OthersKept(old(store.conversations), store.conversations, ConvKey(owner, id))
    {
      hide RunLock.IsRun, Indexed, ResultsIndexed, Along, Disciplined, SavesTell, Drawn, OthersKept;
      ghost var cs := store.conversations;
      OthersAtFirst(cs, ConvKey(owner, id));
      LengthOf(guard, store.now, store.LockOf(owner, id));
      WentKeeps(guard, token, RunLock.Write(other), store.now, store.LockOf(owner, id));
      DrawnNext(guard, token, RunLock.Write(other), oracle.stranger, turn, turn);
      guard := Went(guard, token, RunLock.Write(other));
      var _ := store.SaveConversation(owner, c.(owner := owner, id := id));
      OthersAfterPut(cs, cs, ConvKey(owner, id), store.conversations[ConvKey(owner, id)]);
    }

    method Depart(other: RunLock.Token)
      requires other != token && RunLock.HeldBy(store.LockOf(owner, id), store.now, other)
      requires Drawn(guard, token, oracle.stranger, turn)
      requires Along(guard, store.now, store.LockOf(owner, id)) && Disciplined(guard, token) && SavesTell(guard, token)
      modifies this`guard, store`locks
      ensures Drawn(guard, token, oracle.stranger, turn) && store.LockOf(owner, id) == None
      ensures Along(guard, store.now, store.LockOf(owner, id)) && Disciplined(guard, token) && SavesTell(guard, token)
      ensures guard.idle == old(guard).idle && guard.renewed == old(guard).renewed
      ensures guard.intruded == old(guard).intruded && guard.saves == old(guard).saves
      ensures old(guard).calls <= guard.calls
    {
      hide RunLock.IsRun, Along, Disciplined, SavesTell, Drawn;
      LengthOf(guard, store.now, store.LockOf(owner, id));
      WentKeeps(guard, token, RunLock.Release(other), store.now, store.LockOf(owner, id));
      DrawnNext(guard, token, RunLock.Release(other), oracle.stranger, turn, turn);
      guard := Went(guard, token, RunLock.Release(other));
      store.ReleaseRunLock(owner, id, other);
    }

    /** Time passes, others may come, and the world may break in. */
    method Pause(ghost b: Begin, ghost shape: Shape) returns (stop: bool)
      requires Kept(b, shape) && guard.idle <= 3
      modifies this`turn, this`guard, store`now, store`locks, store`conversations, store`index
      ensures Kept(b, shape) && guard.idle == old(guard).idle + 1
      ensures turn == old(turn) + 1 && stop == oracle.stops(old(turn)) && guard.renewed == old(guard).renewed
      ensures store.now >= old(store.now)
      ensures guard.intruded <==> old(guard).intruded || GetsIn(old(turn), old(store.conversations))
      ensures forall c :: old(InSync(b, shape, c)) ==> InSync(b, shape, c)
    {
      hide Accounts, ShapeOf, OthersKept, Indexed, ResultsIndexed, Followed, Timely;
      PassTime();
      ghost var cs := store.conversations;
      Visit();
      OthersTransitive(b.others, cs, store.conversations, ConvKey(owner, id));
      stop := oracle.stops(turn - 1);
    }

    /** The last event is sent to the client; only then is the lock released. */
    method LastWait(ghost b: Begin)
      requires KeptShaped(b)
      modifies this`turn, this`guard, store`now, store`locks, store`conversations, store`index
      ensures store.Valid() && Followed()
      ensures OthersKept(b.others, store.conversations, ConvKey(owner, id))
      ensures !guard.intruded ==> !old(guard).intruded && store.conversations == old(store.conversations)
      ensures store.now >= old(store.now)
      ensures !old(guard).intruded ==> AloneWhileSaving(guard, token)
      ensures old(guard).idle <= 3 && Brief() ==> !guard.intruded
      ensures guard.saves == old(guard).saves && old(turn) <= turn
    {
      hide Accounts, ShapeOf, OthersKept, Indexed, ResultsIndexed, Disciplined, SavesTell, Drawn, Fair, Along, Holding,
        AloneWhileSaving, StoredIs;
      ghost var shape :| Kept(b, shape);
      ghost var cs := store.conversations;
      PassTime();
      Visit();
      OthersTransitive(b.others, cs, store.conversations, ConvKey(owner, id));
      if !old(guard).intruded {
        NoMoreSaves(old(guard), guard, token);
      }
    }

    /** The end of every run that held the lock. */
    method Leave(ghost b: Begin)
      requires KeptShaped(b)
      modifies this`turn, this`guard, store`now, store`locks, store`conversations, store`index
      ensures store.Valid() && SavesTell(guard, token) && Disciplined(guard, token)
      ensures Along(guard, store.now, store.LockOf(owner, id))
      ensures !RunLock.HeldBy(store.LockOf(owner, id), store.now, token)
      ensures OthersKept(b.others, store.conversations, ConvKey(owner, id))
      ensures !guard.intruded ==> !old(guard).intruded && store.conversations == old(store.conversations)
      ensures store.now >= old(store.now)
      ensures !old(guard).intruded ==> AloneWhileSaving(guard, token)
      ensures old(guard).idle <= 3 && Brief() ==> !guard.intruded
      ensures guard.saves == old(guard).saves && old(turn) <= turn
    {
      hide Accounts, ShapeOf, OthersKept, Indexed, ResultsIndexed, Disciplined, SavesTell, Drawn, Fair, Along,
        KeptShaped, AloneWhileSaving, RunLock.IsRun;
      LastWait(b);
      ghost var lock := store.LockOf(owner, id);
      LengthOf(guard, store.now, lock);
      WentKeeps(guard, token, RunLock.Release(token), store.now, lock);
      Lengthen(guard, RunLock.Release(token), token);
      guard := Went(guard, token, RunLock.Release(token));
      store.ReleaseRunLock(owner, id, token);
    }

    /** The script that extends the lease, for the holder only. */
    method RenewLock(ghost b: Begin, ghost shape: Shape) returns (ok: bool)
      requires Kept(b, shape)
      modifies this`guard, store`locks
      ensures Kept(b, shape)
      ensures ok <==> store.now < old(guard).renewed + LOCK_TTL
      ensures if ok then JustRenewed() else guard.idle == old(guard).idle && guard.renewed == old(guard).renewed
      ensures forall c :: old(InSync(b, shape, c)) ==> InSync(b, shape, c)
    {
      hide Accounts, ShapeOf, OthersKept, Indexed, ResultsIndexed, Guarded;
      ok := Renew();
    }

    method Renew() returns (ok: bool)
      requires Guarded()
      modifies this`guard, store`locks
      ensures Guarded()
      ensures ok <==> store.now < old(guard).renewed + LOCK_TTL
      ensures if ok then JustRenewed() else guard.idle == old(guard).idle && guard.renewed == old(guard).renewed
      ensures guard.intruded == old(guard).intruded
    {
      hide RunLock.IsRun, Along, Disciplined, SavesTell, Drawn, Fair;
      ghost var step, lock := RunLock.Refresh(token, LOCK_TTL), store.LockOf(owner, id);
      RenewIs(guard, token, store.now, lock);
      WentKeeps(guard, token, step, store.now, lock);
      DrawnNext(guard, token, step, oracle.stranger, turn, turn);
      guard := Went(guard, token, step);
      ok := store.RefreshRunLock(owner, id, token, LOCK_TTL);
    }

    /** Books a save of the whole conversation. */
    ghost method Book(kind: Kind)
      requires Guarded() && (Prompt(kind) ==> JustRenewed())
      modifies this`guard
      ensures Guarded() && Booked(old(guard), kind)
    {
      hide RunLock.IsRun, Along, Disciplined, SavesTell, Drawn, Fair;
      LengthOf(guard, store.now, store.LockOf(owner, id));
      SavedKeeps(guard, token, kind, store.now, store.LockOf(owner, id), oracle.stranger, turn);
      SavedTells(guard, token, kind, store.now, store.LockOf(owner, id));
      guard := Saved(guard, token, kind, store.now);
    }

    /** One save of this kind more, now. */
    ghost predicate Booked(was: Guard, kind: Kind)
      reads this`guard, store`now
    {
      && guard.renewed == was.renewed && guard.idle == was.idle && guard.intruded == was.intruded
      && guard.saves == was.saves + [Save(kind, store.now, was.renewed, |was.calls|)]
    }

    // -------------------------------------------------------------- saves

    lemma InSyncMeans(b: Begin, shape: Shape, c: Conversation)
      requires InSync(b, shape, c)
      ensures Kept(b, shape) && c.owner == owner && c.id == id && (!guard.intruded ==> StoredIs(b, shape, c))
    {
      hide StoredIs, Kept;
    }

    lemma KeptMeans(b: Begin, shape: Shape)
      requires Kept(b, shape)
      ensures store.Valid()
      ensures !guard.intruded && store.Stored(owner, id).Some? ==> StoredIs(b, shape, store.Stored(owner, id).value)
    {
      hide StoredIs, Guarded, Traced, OthersKept, Indexed, ResultsIndexed;
    }

    lemma SavedInSync(b: Begin, shape: Shape, c: Conversation)
      requires store.Valid() && b.first.owner == owner && b.first.id == id
      requires OthersKept(b.others, store.conversations, ConvKey(owner, id)) && Guarded() && Traced(log, b.question)
      requires c.owner == owner && c.id == id && store.Stored(owner, id) == Some(c)
      requires !guard.intruded ==> StoredIs(b, shape, c)
      ensures InSync(b, shape, c) && Kept(b, shape)
    {
      hide StoredIs, Guarded, Traced, OthersKept, Indexed, ResultsIndexed;
    }

    method Record(ghost b: Begin, ghost shape: Shape, ghost kind: Kind, event: Event) returns (ok: bool)
      requires Kept(b, shape) && (Prompt(kind) ==> JustRenewed())
      modifies this`log, this`guard, store`conversations, store`index
      ensures Kept(b, shape)
      ensures ok <==> old(store.Stored(owner, id)).Some?
      ensures if ok then Booked(old(guard), kind) else guard == old(guard) && store.Stored(owner, id).None?
      ensures log == if ok then old(log).(recorded := old(log).recorded + [event]) else old(log)
    {
      hide Accounts, ShapeOf, OthersKept, Indexed, ResultsIndexed, Recent, Guarded, Traced;
      ghost var was := store.Stored(owner, id);
      ghost var cs := store.conversations;
      var r := store.AppendEvent(owner, id, event);
      ok := r.Success?;
      if ok {
        Book(kind);
        if !guard.intruded {
          EventKeeps(b.first, was.value, log, event, store.now);
        }
        OthersAfterPut(b.others, cs, ConvKey(owner, id), store.conversations[ConvKey(owner, id)]);
        TracedSame(log, log.(recorded := log.recorded + [event]), b.question);
        log := log.(recorded := log.recorded + [event]);
      }
    }

    method Append(ghost b: Begin, ghost shape: Shape, ghost kind: Kind, ghost origin: Origin, m: Message)
      returns (r: Option<Conversation>)
      requires Kept(b, shape) && !Next(shape, m).Bad? && (Prompt(kind) ==> JustRenewed())
      requires IsFrom(m, origin, b.question)
      modifies this`log, this`guard, store`conversations, store`index
      ensures r.Some? <==> old(store.Stored(owner, id)).Some?
      ensures r.None? ==> Kept(b, shape) && log == old(log) && guard == old(guard) && store.Stored(owner, id).None?
      ensures r.Some? ==> InSync(b, Next(shape, m), r.value) && Kept(b, Next(shape, m)) && Booked(old(guard), kind)
      ensures r.Some? ==>
                log == old(log).(appended := old(log).appended + [m], origins := old(log).origins + [origin])
    {
      hide Accounts, ShapeOf, OthersKept, Indexed, ResultsIndexed, Guarded, Traced, InSync, IsFrom, Next;
      ghost var was := store.Stored(owner, id);
      ghost var cs := store.conversations;
      var saved := store.AppendMessage(owner, id, m);
      if saved.Failure? {
        return None;
      }
      Book(kind);
      if !guard.intruded {
        MessageKeeps(b.first, was.value, log, m, origin, store.now);
      }
      OthersAfterPut(b.others, cs, ConvKey(owner, id), store.conversations[ConvKey(owner, id)]);
      TracedNext(log, m, origin, b.question);
      log := log.(appended := log.appended + [m], origins := log.origins + [origin]);
      SavedInSync(b, Next(shape, m), saved.value);
      return Some(saved.value);
    }

    /** A whole-conversation save: of something that accounts for the log as it is then. */
    method SaveCopy(ghost b: Begin, ghost shape: Shape, ghost kind: Kind, c: Conversation, ghost later: Log)
      returns (saved: Conversation)
      requires Kept(b, shape) && c.owner == owner && c.id == id && (Prompt(kind) ==> JustRenewed())
      requires later.appended == log.appended && later.origins == log.origins
      requires !guard.intruded ==>
                 Accounts(b.first, c.(updatedAt := store.now), later) && ShapeOf(c.messages) == shape && !shape.Bad?
      modifies this`log, this`guard, store`conversations, store`index
      ensures InSync(b, shape, saved) && Kept(b, shape) && Booked(old(guard), kind)
      ensures store.Stored(owner, id) == Some(saved) && saved == c.(updatedAt := store.now)
      ensures log == later
    {
      hide Accounts, ShapeOf, OthersKept, Indexed, ResultsIndexed, Guarded, Traced, InSync;
      ghost var cs := store.conversations;
      var r := store.SaveConversation(owner, c);
      Book(kind);
      OthersAfterPut(b.others, cs, ConvKey(owner, id), store.conversations[ConvKey(owner, id)]);
      TracedSame(log, later, b.question);
      log := later;
      saved := r.value;
      SavedInSync(b, shape, saved);
    }

    lemma StoredMeans(b: Begin, shape: Shape, c: Conversation)
      requires StoredIs(b, shape, c)
      ensures Accounts(b.first, c, log) && ShapeOf(c.messages) == shape && !shape.Bad? && WellShaped(c.messages)
    {
      hide Accounts;
    }

    /** A whole-conversation save of the run's own copy with other counters. Unless another
        run has got in, the copy is what is stored: nothing is overwritten. */
    method SaveMetrics(ghost b: Begin, ghost shape: Shape, ghost kind: Kind, c: Conversation, failed: bool, tokens: nat)
      returns (saved: Conversation)
      requires InSync(b, shape, c) && (Prompt(kind) ==> JustRenewed())
      modifies this`log, this`guard, store`conversations, store`index
      ensures InSync(b, shape, saved) && Kept(b, shape) && Booked(old(guard), kind)
      ensures store.Stored(owner, id) == Some(saved)
      ensures var m, n := c.state.metrics, if failed then 1 else 0;
              saved == c.(state := c.state.(metrics := Metrics(m.attempts + n, m.accepted, m.failures + n,
                                                               m.tokens + tokens)),
                          updatedAt := store.now)
      ensures log == old(log).(tries := old(log).tries + (if failed then 1 else 0), tokens := old(log).tokens + tokens)
    {
      hide Accounts, ShapeOf, Kept, InSync, StoredIs;
      InSyncMeans(b, shape, c);
      ghost var later := log.(tries := log.tries + (if failed then 1 else 0), tokens := log.tokens + tokens);
      if !guard.intruded {
        StoredMeans(b, shape, c);
        MetricsKeep(b.first, c, log, failed, tokens, store.now);
      }
      saved := SaveCopy(b, shape, kind, Telemetered(c, failed, tokens), later);
    }

    /** A whole-conversation save of a compressed copy. */
    method SaveCut(ghost b: Begin, ghost shape: Shape, c: Conversation, cut: nat, summary: string, tokens: nat)
      returns (saved: Conversation)
      requires InSync(b, shape, c)
      requires cut < |c.messages| && c.messages[cut].User?
      modifies this`log, this`guard, store`conversations, store`index
      ensures InSync(b, shape, saved) && Kept(b, shape) && Booked(old(guard), Kind.Cut)
      ensures store.Stored(owner, id) == Some(saved)
      ensures var m := c.state.metrics;
              saved == c.(messages := c.messages[cut..], summary := summary,
                          state := c.state.(metrics := Metrics(m.attempts + 1, m.accepted + 1, m.failures,
                                                               m.tokens + tokens)),
                          updatedAt := store.now)
      ensures log == old(log).(tries := old(log).tries + 1, accepted := old(log).accepted + 1,
                               tokens := old(log).tokens + tokens)
    {
      hide Accounts, ShapeOf, Kept, InSync, StoredIs;
      InSyncMeans(b, shape, c);
      ghost var later := log.(tries := log.tries + 1, accepted := log.accepted + 1, tokens := log.tokens + tokens);
      if !guard.intruded {
        StoredMeans(b, shape, c);
        AccountsCut(b.first, c, log, cut, summary, tokens, store.now);
      }
      saved := SaveCopy(b, shape, Kind.Cut, CutConversation(c, cut, summary, tokens), later);
    }

    /** Compression, written out: nothing to do, or one request that is accepted or counted as failed. The
        request is sent without a look at its size, and its answer takes its time: the save
        that follows overwrites what another run has written if and only if one got in
        meanwhile. */
    method Summarize(ghost b: Begin, ghost shape: Shape, c: Conversation) returns (saved: Conversation)
      requires InSync(b, shape, c) && Kept(b, shape) && guard.idle <= 3 && context.Valid() && Budgeted()
      modifies this`turn, this`log, this`sent, this`guard
      modifies store`now, store`locks, store`conversations, store`index
      ensures InSync(b, shape, saved) && Kept(b, shape) && Budgeted()
      ensures guard.idle <= old(guard).idle + 1 && old(turn) <= turn
      ensures guard.renewed == old(guard).renewed
      ensures log.appended == old(log).appended && log.origins == old(log).origins
      ensures Asks(c) ==>
                var summary, m := oracle.summary(old(turn)), c.state.metrics;
                var used := if summary.Raises? then 0 else summary.tokens;
                saved == if summary.Text? && summary.text != ""
                         then c.(messages := c.messages[CutOf(c).value..], summary := summary.text,
                                 state := c.state.(metrics := Metrics(m.attempts + 1, m.accepted + 1, m.failures,
                                                                      m.tokens + used)),
                                 updatedAt := store.now)
                         else c.(state := c.state.(metrics := Metrics(m.attempts + 1, m.accepted, m.failures + 1,
                                                                      m.tokens + used)),
                                 updatedAt := store.now)
      ensures sent == old(sent) + if Asks(c) then [ForSummary(|RequestFor(c)|)] else []
      ensures Requests(sent) == Requests(old(sent))
      ensures Asks(c) ==>
                && store.Stored(owner, id) == Some(saved)
                && (guard.intruded <==> old(guard).intruded || GetsIn(old(turn), old(store.conversations)))
      ensures !Asks(c) ==> saved == c && guard == old(guard)
    {
      hide Kept, InSync, Requests, Context.ContextManager.ShouldCompress, Context.CutPoint, Context.HistoryText,
        Context.SummaryRequest, Context.EstimatePayload, WantsCut, StoppedIn;
      saved := c;
      var cut := Context.CutPoint(c.messages, context.keepRounds);
      if !WantsCut(c) || cut == None {
        return;
      }
      var prompt := Context.SummaryRequest(oracle.json, c.messages[..cut.value], c.summary);
      Context.EstimateIsLength(prompt);
      OneMoreRequest(sent, ForSummary(Context.EstimatePayload(prompt)));
      sent := sent + [ForSummary(Context.EstimatePayload(prompt))];
      var summary := oracle.summary(turn);
      var _ := Pause(b, shape);
      if summary.Text? && summary.text != "" {
        saved := SaveCut(b, shape, c, cut.value, summary.text, TokensOf(summary));
      } else {
        saved := SaveMetrics(b, shape, Kind.Cut, c, true, TokensOf(summary));
      }
    }

    /** Compression in the run is the pure compression of messages and summary. */
    method Compress(ghost b: Begin, ghost shape: Shape, c: Conversation) returns (saved: Conversation)
      requires InSync(b, shape, c) && Kept(b, shape) && guard.idle <= 3 && context.Valid() && Budgeted()
      modifies this`turn, this`log, this`sent, this`guard
      modifies store`now, store`locks, store`conversations, store`index
      ensures InSync(b, shape, saved) && Kept(b, shape) && Budgeted()
      ensures guard.idle <= old(guard).idle + 1 && old(turn) <= turn
      ensures guard.renewed == old(guard).renewed
      ensures log.appended == old(log).appended && log.origins == old(log).origins
      ensures Asks(c) ==>
                var summary, m := oracle.summary(old(turn)), c.state.metrics;
                var used := if summary.Raises? then 0 else summary.tokens;
                saved == if summary.Text? && summary.text != ""
                         then c.(messages := c.messages[CutOf(c).value..], summary := summary.text,
                                 state := c.state.(metrics := Metrics(m.attempts + 1, m.accepted + 1, m.failures,
                                                                      m.tokens + used)),
                                 updatedAt := store.now)
                         else c.(state := c.state.(metrics := Metrics(m.attempts + 1, m.accepted, m.failures + 1,
                                                                      m.tokens + used)),
                                 updatedAt := store.now)
      ensures Context.History(saved.messages, saved.summary) ==
                Context.Compress(Context.History(c.messages, c.summary), context.keepRounds, WantsCut(c),
                                 ReplyOf(oracle.summary(old(turn))))
      ensures sent == old(sent) + if Asks(c) then [ForSummary(|RequestFor(c)|)] else []
      ensures Requests(sent) == Requests(old(sent))
      ensures Asks(c) ==>
                && store.Stored(owner, id) == Some(saved)
                && (guard.intruded <==> old(guard).intruded || GetsIn(old(turn), old(store.conversations)))
      ensures !Asks(c) ==> saved == c && guard == old(guard)
    {
      hide Kept, InSync, Requests, Budgeted, GetsIn, Context.CutPoint, Context.HistoryText, Context.SummaryRequest,
        Context.EstimatePayload, WantsCut;
      saved := Summarize(b, shape, c);
    }

    /** Compression, as far as the loop is concerned. */
    method Shorten(ghost b: Begin, ghost shape: Shape, c: Conversation) returns (saved: Conversation)
      requires InSync(b, shape, c) && Kept(b, shape) && guard.idle <= 3 && context.Valid() && Budgeted()
      modifies this`turn, this`log, this`sent, this`guard
      modifies store`now, store`locks, store`conversations, store`index
      ensures InSync(b, shape, saved) && Kept(b, shape) && Budgeted()
      ensures guard.idle <= old(guard).idle + 1 && old(turn) <= turn
      ensures guard.renewed == old(guard).renewed
      ensures log.appended == old(log).appended && log.origins == old(log).origins
      ensures Requests(sent) == Requests(old(sent))
    {
      hide Kept, InSync, Requests, Budgeted, GetsIn, WantsCut, Asks, CutOf, RequestFor, Context.Compress, ReplyOf;
      saved := Compress(b, shape, c);
    }

    /** When the summarizer is asked, and about what. */
    lemma AsksMeans(c: Conversation)
      requires context.Valid()
      ensures var users := UserIndexes(c.messages);
              && (Asks(c) <==>
                    && |users| > context.keepRounds
                    && |Context.HistoryText(oracle.json, c.messages, c.summary)|
                       >= (context.EffectiveInputTokens() as real * context.thresholdRatio).Floor)
              && (Asks(c) ==>
                    && CutOf(c) == Some(users[|users| - context.keepRounds])
                    && RequestFor(c) == Context.SummaryRequest(oracle.json, c.messages[..CutOf(c).value], c.summary))
    {
      hide Context.HistoryText, UserIndexes, Context.ContextManager.EffectiveInputTokens;
      Context.EstimateIsLength(Context.HistoryText(oracle.json, c.messages, c.summary));
    }

    /** What the summarizer is asked. */
    function RequestFor(c: Conversation): string
      requires context.keepRounds >= 1 && CutOf(c).Some?
      reads context
    {
      Context.SummaryRequest(oracle.json, c.messages[..CutOf(c).value], c.summary)
    }

    /** The summarizer is asked. */
    predicate Asks(c: Conversation)
      requires context.keepRounds >= 1
      reads context
    {
      WantsCut(c) && CutOf(c).Some?
    }

    function CutOf(c: Conversation): Option<nat>
      requires context.keepRounds >= 1
      reads context
    {
      Context.CutPoint(c.messages, context.keepRounds)
    }

    function WantsCut(c: Conversation): bool
      reads context
    {
      context.ShouldCompress(Context.EstimatePayload(Context.HistoryText(oracle.json, c.messages, c.summary)))
    }

    method CreateRows(ghost b: Begin, ghost shape: Shape, result: ResultId, kind: string, rows: seq<string>)
      returns (ok: bool)
      requires Kept(b, shape) && IsNew(store.results, store.resultIndex, result)
      modifies store`results, store`resultIndex
      ensures Kept(b, shape)
      ensures ok <==> store.Stored(owner, id).Some?
      ensures ok ==> ResKey(owner, result) in store.results
                     && store.results[ResKey(owner, result)].value == ResultSet(owner, id, kind, rows)
    {
      hide StoredIs, OthersKept, Indexed, ResultsIndexed, Guarded, Traced;
      var created := store.CreateResultSet(owner, id, result, kind, rows);
      ok := created.Success?;
    }

    /** A tool that finds rows stores them, and points the conversation at them, with a
        read and a write of its own: the run's copy is now out of date. */
    method StoreRows(ghost b: Begin, ghost shape: Shape, result: ResultId, kind: string, rows: seq<string>)
      returns (ok: bool)
      requires Kept(b, shape)
      modifies this`log, this`guard, store`conversations, store`index, store`results, store`resultIndex
      ensures Kept(b, shape)
      ensures if ok then Booked(old(guard), Rows) else guard == old(guard)
      ensures ok <==> && ResKey(owner, result) !in old(store.results)
                      && (forall k :: k in old(store.resultIndex) && k.owner == owner ==>
                            result !in old(store.resultIndex)[k].value)
                      && old(store.Stored(owner, id)).Some?
      ensures ok ==>
                && ResKey(owner, result) in store.results
                && store.results[ResKey(owner, result)].value == ResultSet(owner, id, kind, rows)
                && store.Stored(owner, id).Some?
                && store.Stored(owner, id).value.state.lastResult == Some(result)
      ensures !ok && old(store.Stored(owner, id)).None? ==> store.Stored(owner, id).None?
      ensures log == if ok then old(log).(produced := old(log).produced + [result]) else old(log)
    {
      hide Accounts, ShapeOf, Kept, InSync, StoredIs;
      // A UUID that is not new cannot be drawn.
      if !IsNew(store.results, store.resultIndex, result) {
        KeptMeans(b, shape);
        return false;
      }
      var created := CreateRows(b, shape, result, kind, rows);
      KeptMeans(b, shape);
      if !created {
        return false;
      }
      var found := store.GetConversation(owner, id);
      if found.Failure? {
        return false;
      }
      var c := found.value;
      ghost var later := log.(produced := log.produced + [result]);
      if !guard.intruded {
        StoredMeans(b, shape, c);
        RowsKeep(b.first, c, log, result, store.now);
      }
      var saved := SaveCopy(b, shape, Rows, c.(state := c.state.(lastResult := Some(result))), later);
      return true;
    }

    predicate IsNew(results: Results, index: ResultIndex, result: ResultId) {
      && ResKey(owner, result) !in results
      && forall k :: k in index && k.owner == owner ==> result !in index[k].value
    }

    // -------------------------------------------------------------- tool calls

    /** The client hung up, or something raised, during one of these interactions. */
    ghost predicate StoppedIn(from: nat, to: nat) {
      exists t :: from <= t < to && oracle.stops(t)
    }

    /** The lease is over, or the conversation has expired. */
    ghost predicate Overtaken()
      reads this`guard, store
    {
      store.now >= guard.renewed + LOCK_TTL || store.Stored(owner, id).None?
    }

    /** Runs a tool; a failure becomes the text of the answer. Only a client that hangs up
        ends the run here. */
    method ExecuteTool(ghost b: Begin, ghost shape: Shape) returns (gone: bool, done: bool, text: string)
      requires Kept(b, shape) && guard.idle <= 1
      modifies this`turn, this`log, this`guard, store`now, store`locks
      modifies store`conversations, store`index, store`results, store`resultIndex
      ensures Kept(b, shape) && guard.idle <= 3
      ensures old(turn) < turn && (gone ==> StoppedIn(old(turn), turn))
      ensures old(log).appended == log.appended && old(log).recorded <= log.recorded
      ensures !gone ==> IsAnswer(oracle.tool(old(turn)), done, text)
      ensures !gone && done ==> log.recorded == old(log).recorded + Records(oracle.tool(old(turn)))
      ensures !gone && !done ==>
                StoppedIn(old(turn), turn) || Overtaken()
                || (oracle.tool(old(turn)).ReturnsRows?
                    && !IsNew(old(store.results), old(store.resultIndex), oracle.tool(old(turn)).id))
      ensures log.origins == old(log).origins
      ensures log.tokens == old(log).tokens
    {
      hide Kept, InSync, GetsIn;
      var outcome := oracle.tool(turn);
      gone := Pause(b, shape);
      text, done := TOOL_FAILED, true;
      if gone { return; }
      match outcome
      case Fails =>
      case Returns(t) => text := t;
      case ReturnsRows(result, kind, rows, payload) =>
        done := StoreRows(b, shape, result, kind, rows);
        text := if done then payload else TOOL_FAILED;
      case Drafts(t) =>
        done := Record(b, shape, Drafted, Event("autonomy.draft_created", t));
        if done {
          gone := Pause(b, shape);
          text := t;
        }
      case Diagnoses(progress, t) =>
        gone, done, text := Follow(b, shape, progress, t);
    }

    /** A diagnosis reports while it runs; each report renews the lock. */
    method Follow(ghost b: Begin, ghost shape: Shape, progress: seq<Event>, report: Option<string>)
      returns (gone: bool, done: bool, text: string)
      requires Kept(b, shape) && guard.idle <= 2
      modifies this`turn, this`log, this`guard, store`now, store`locks, store`conversations, store`index
      ensures Kept(b, shape) && guard.idle <= 2
      ensures old(turn) <= turn && (gone ==> StoppedIn(old(turn), turn))
      ensures old(log).appended == log.appended && old(log).recorded <= log.recorded
      ensures text == if !gone && done && report.Some? then report.value else TOOL_FAILED
      ensures done ==> log.recorded == old(log).recorded + progress
      ensures !done ==> StoppedIn(old(turn), turn) || Overtaken()
      ensures log.origins == old(log).origins
      ensures log.tokens == old(log).tokens
    {
      hide Kept, InSync, GetsIn;
      gone, done, text := false, false, TOOL_FAILED;
      for i := 0 to |progress|
        invariant Kept(b, shape) && guard.idle <= 2
        invariant old(turn) <= turn
        invariant log.origins == old(log).origins && log.tokens == old(log).tokens
        invariant old(log).appended == log.appended && log.recorded == old(log).recorded + progress[..i]
      {
        var ok := RenewLock(b, shape);
        if ok {
          ok := Record(b, shape, Progress, progress[i]);
        }
        if !ok { return; }
        assert progress[..i + 1] == progress[..i] + [progress[i]];
        gone := Pause(b, shape);
        if gone { return; }
        // The wait for the next report.
        var raised := Pause(b, shape);
        if raised { return; }
      }
      assert progress[..|progress|] == progress;
      done := RenewLock(b, shape);
      text := if done && report.Some? then report.value else TOOL_FAILED;
    }

    /** A call is started, executed and completed: two events, and what the tool records
        between them. It fails only when the client is gone, the lease is over or the
        conversation has expired, whatever the tool does. */
    method Perform(ghost b: Begin, ghost shape: Shape, call: CallId)
      returns (ok: bool, text: string, ghost ran: nat, ghost done: bool)
      requires Kept(b, shape)
      modifies this`turn, this`log, this`guard, store`now, store`locks
      modifies store`conversations, store`index, store`results, store`resultIndex
      ensures Kept(b, shape) && (ok ==> JustRenewed())
      ensures old(turn) <= turn && (!ok ==> StoppedIn(old(turn), turn) || Overtaken())
      ensures log.appended == old(log).appended
      ensures ok ==> old(turn) <= ran < turn && IsAnswer(oracle.tool(ran), done, text)
      ensures ok ==> Around(old(log).recorded, log.recorded, call, if done then Some(Records(oracle.tool(ran))) else None)
      ensures log.origins == old(log).origins
      ensures log.tokens == old(log).tokens
    {
      hide Kept, InSync, Around, GetsIn, IsAnswer, IsNew, Records;
      text, ran, done := "", turn, false;
      ok := RenewLock(b, shape);
      if !ok { return; }
      ok := Record(b, shape, Started, Event("tool.started", call));
      if !ok { return; }
      ghost var before := log.recorded;
      var gone := Pause(b, shape);
      if gone { return false, "", ran, done; }
      ran := turn;
      var went;
      gone, went, text := ExecuteTool(b, shape);
      done := went;
      if gone { return false, text, ran, done; }
      ghost var after := log.recorded;
      ok := Record(b, shape, Finished, Event("tool.completed", call));
      if !ok { return; }
      IsAround(old(log).recorded, before, after, log.recorded, call,
               if done then Some(Records(oracle.tool(ran))) else None);
      gone := Pause(b, shape);
      if gone { return false, text, ran, done; }
      ok := RenewLock(b, shape);
    }

    /** One call, and its answer in the transcript: the answer of the tool that ran. */
    method Call(ghost b: Begin, calls: seq<CallId>, k: nat) returns (ok: bool)
      requires k < |calls| && Kept(b, Answering(calls, k))
      modifies this`turn, this`log, this`guard, store`now, store`locks
      modifies store`conversations, store`index, store`results, store`resultIndex
      ensures if ok then Kept(b, Answering(calls, k + 1)) && JustRenewed() else KeptShaped(b)
      ensures old(turn) <= turn && (!ok ==> StoppedIn(old(turn), turn) || Overtaken())
      ensures !ok ==> log.appended == old(log).appended
      ensures ok ==> exists ran, done, text :: Called(old(log), log, calls[k], old(turn), turn, ran, done, text)
      ensures log.tokens == old(log).tokens
    {
      ghost var shape := Answering(calls, k);
      hide Kept, InSync, Around, GetsIn, IsAnswer, Records;
      var performed, text, ran, done := Perform(b, shape, calls[k]);
      assert KeptShaped(b);
      if !performed { return false; }
      ToolIsFrom(ran, done, calls[k], text, b.question);
      var r := Append(b, shape, Kind.Answer, Ran(ran, done), Tool(calls[k], text));
      ok := r.Some?;
      assert ok ==> Called(old(log), log, calls[k], old(turn), turn, ran, done, text);
    }

    /** One message more: the answer of the tool that ran with interaction `ran`; and two
        events of the call, with what the tool records between them. */
    ghost predicate Called(before: Log, after: Log, call: CallId, from: nat, to: nat, ran: nat, done: bool, text: string) {
      && from <= ran < to && IsAnswer(oracle.tool(ran), done, text)
      && after.appended == before.appended + [Tool(call, text)]
      && after.origins == before.origins + [Ran(ran, done)]
      && Around(before.recorded, after.recorded, call, if done then Some(Records(oracle.tool(ran))) else None)
    }

    lemma ToolIsFrom(ran: nat, done: bool, call: CallId, text: string, question: string)
      requires IsAnswer(oracle.tool(ran), done, text)
      ensures IsFrom(Tool(call, text), Ran(ran, done), question)
    {
    }

    /** All calls of one reply, one after the other. */
    method Calls(ghost b: Begin, calls: seq<CallId>) returns (ok: bool)
      requires Kept(b, Answering(calls, 0)) && guard.idle == 0
      modifies this`turn, this`log, this`guard, store`now, store`locks
      modifies store`conversations, store`index, store`results, store`resultIndex
      ensures if ok then Kept(b, Answering(calls, |calls|)) && guard.idle == 0 else KeptShaped(b)
      ensures old(log).appended <= log.appended
      ensures ok ==> |log.appended| == |old(log).appended| + |calls|
      ensures old(turn) <= turn && (!ok ==> StoppedIn(old(turn), turn) || Overtaken())
      ensures log.tokens == old(log).tokens
    {
      hide Kept, InSync, GetsIn, Around, IsAnswer, Records;
      for k := 0 to |calls|
        invariant Kept(b, Answering(calls, k)) && guard.idle == 0
        invariant old(log).appended <= log.appended && |log.appended| == |old(log).appended| + k
        invariant log.tokens == old(log).tokens
        invariant old(turn) <= turn
      {
        ghost var from := turn;
        ok := Call(b, calls, k);
        if !ok {
          assert StoppedIn(from, turn) ==> StoppedIn(old(turn), turn);
          return;
        }
      }
      return true;
    }

    // -------------------------------------------------------------- the loop

    /** What ended a run early is there to see: interactions from `from` on, and the saves. */
    ghost predicate Explained(why: Why, from: nat)
      reads this`turn, this`guard, store
    {
      match why
      case Stopped => StoppedIn(from, turn)
      case Overtaken => Overtaken()
      case OverBudget => guard.saves != [] && guard.saves[|guard.saves| - 1].kind.Refusal?
      case _ => false
    }

    lemma Explains(why: Why, from: nat)
      requires (why == Stopped && StoppedIn(from, turn)) || (why == Why.Overtaken && Overtaken())
      ensures Explained(why, from)
    {
    }

    lemma StillExplained(why: Why, from: nat, later: nat)
      requires Explained(why, later) && from <= later
      ensures Explained(why, from)
    {
    }

    /** The request to the provider: streamed fragments keep the lock alive, and each is sent
        on to the client. The reply is the provider's to this interaction. */
    method Ask(ghost b: Begin, ghost shape: Shape) returns (reply: Option<Reply>, ghost why: Why)
      requires Kept(b, shape) && guard.idle <= 1
      modifies this`turn, this`guard, store`now, store`locks, store`conversations, store`index
      ensures Kept(b, shape) && old(turn) <= turn
      ensures reply.Some? ==> reply.value == oracle.reply(old(turn)) && JustRenewed()
      ensures reply.None? ==> Explained(why, old(turn))
      ensures forall c :: old(InSync(b, shape, c)) ==> InSync(b, shape, c)
    {
      hide Kept, InSync, GetsIn;
      var answer, deltas := oracle.reply(turn), oracle.deltas(turn);
      why := Stopped;
      var ok;
      for i := 0 to deltas
        invariant Kept(b, shape) && guard.idle <= 1 && old(turn) <= turn
        invariant forall c :: old(InSync(b, shape, c)) ==> InSync(b, shape, c)
      {
        ok, why := Await(b, shape);
        if !ok {
          return None, why;
        }
        var gone := Pause(b, shape);
        if gone {
          return None, Stopped;
        }
      }
      ok, why := Await(b, shape);
      return if ok then Some(answer) else None, why;
    }

    /** The next thing the provider says. */
    method Await(ghost b: Begin, ghost shape: Shape) returns (ok: bool, ghost why: Why)
      requires Kept(b, shape) && guard.idle <= 3
      modifies this`turn, this`guard, store`now, store`locks, store`conversations, store`index
      ensures Kept(b, shape) && turn == old(turn) + 1
      ensures if ok then JustRenewed() else forall from: nat :: from <= old(turn) ==> Explained(why, from)
      ensures forall c :: old(InSync(b, shape, c)) ==> InSync(b, shape, c)
    {
      hide Kept, InSync, GetsIn;
      var raised := Pause(b, shape);
      ok := RenewLock(b, shape);
      why := if raised then Stopped else Why.Overtaken;
      ok := ok && !raised;
    }

    /** What the request for an answer is estimated at. */
    function EstimateOf(c: Conversation): nat
      reads this`turn
    {
      Context.EstimatePayload(Context.HistoryText(oracle.json, c.messages, c.summary + oracle.diagnosis(turn)))
    }

    /** The request is sent if and only if it is within the budget; if not, the run ends here
        with the refusal saved. */
    method CheckBudget(ghost b: Begin, ghost shape: Shape, c: Conversation) returns (ok: bool)
      requires InSync(b, shape, c) && context.Valid() && Budgeted()
      modifies this`log, this`sent, this`guard, store`conversations, store`index
      ensures Budgeted() && Kept(b, shape) && guard.idle == old(guard).idle && guard.renewed == old(guard).renewed
      ensures ok <==> EstimateOf(c) <= context.EffectiveInputTokens()
      ensures ok <==> |Context.HistoryText(oracle.json, c.messages, c.summary + oracle.diagnosis(turn))|
                      <= Context.Max(128, context.contextWindow - context.outputReserve - context.safetyReserve
                                          - context.runtimeReserve)
      ensures sent == old(sent) + if ok then [ForAnswer(EstimateOf(c), context.runtimeReserve, turn)] else []
      ensures if ok then InSync(b, shape, c) else Booked(old(guard), Refusal)
      ensures log == old(log)
      ensures Requests(sent) == Requests(old(sent)) + if ok then 1 else 0
    {
      hide Kept, InSync, Requests;
      KeptFromSync(b, shape, c);
      OneMoreRequest(sent, ForAnswer(EstimateOf(c), context.runtimeReserve, turn));
      Context.EstimateIsLength(Context.HistoryText(oracle.json, c.messages, c.summary + oracle.diagnosis(turn)));
      var estimate := EstimateOf(c);
      if estimate > context.EffectiveInputTokens() {
        var _ := SaveMetrics(b, shape, Refusal, c, false, 0);
        return false;
      }
      sent := sent + [ForAnswer(estimate, context.runtimeReserve, turn)];
      return true;
    }

    lemma KeptFromSync(b: Begin, shape: Shape, c: Conversation)
      requires InSync(b, shape, c)
      ensures Kept(b, shape)
    {
    }

    /** How many requests for an answer were sent. */
    ghost function Requests(sent: seq<Sent>): nat {
      if sent == [] then 0
      else Requests(sent[..|sent| - 1]) + (if sent[|sent| - 1].ForAnswer? then 1 else 0)
    }

    lemma OneMoreRequest(before: seq<Sent>, s: Sent)
      ensures Requests(before + [s]) == Requests(before) + (if s.ForAnswer? then 1 else 0)
    {
      assert (before + [s])[..|before|] == before;
    }

    /** Up to the request: the lock is renewed, history is cut, the budget is checked with the
        reserve of now. */
    method Prepare(ghost b: Begin, ghost shape: Shape, c: Conversation)
      returns (ok: bool, next: Conversation, ghost why: Why)
      requires InSync(b, shape, c) && Kept(b, shape) && guard.idle <= 3 && context.Valid() && Budgeted()
      modifies this`turn, this`log, this`sent, this`guard, context`runtimeReserve, store`now, store`locks
      modifies store`conversations, store`index
      ensures context.Valid() && Budgeted() && Kept(b, shape) && old(turn) <= turn
      ensures log.appended == old(log).appended && log.origins == old(log).origins
      ensures ok ==> InSync(b, shape, next) && guard.idle <= 1 && guard.renewed >= old(store.now)
      ensures ok ==>
                && sent != []
                && sent[|sent| - 1] == ForAnswer(EstimateOf(next), |oracle.reserve(old(turn) + 1)|, turn)
                && Requests(sent) == Requests(old(sent)) + 1
      ensures !ok ==> Explained(why, old(turn))
    {
      hide Kept, InSync, Budgeted, GetsIn, WantsCut, Asks, CutOf, RequestFor, Context.Compress, Requests, EstimateOf;
      next := c;
      var stop := Pause(b, shape);
      ok := RenewLock(b, shape);
      why := if stop then Stopped else Why.Overtaken;
      if stop || !ok { return false, c, why; }
      ReserveFor(oracle.reserve(turn));
      next := Shorten(b, shape, c);
      why := OverBudget;
      ok := CheckBudget(b, shape, next);
    }

    /** One step of the loop: `done` when the final answer is stored, which is the provider's
        reply to the last request. */
    method Step(ghost b: Begin, ghost shape: Shape, c: Conversation)
      returns (ok: bool, done: bool, next: Conversation, ghost after: Shape, ghost why: Why)
      requires InSync(b, shape, c) && Kept(b, shape) && guard.idle <= 3 && context.Valid() && Budgeted()
      requires shape == Open || (shape.Answering? && shape.done == |shape.calls|)
      modifies this`turn, this`log, this`sent, this`guard, context`runtimeReserve, store`now, store`locks
      modifies store`conversations, store`index, store`results, store`resultIndex
      ensures context.Valid() && Budgeted() && old(turn) <= turn
      ensures !ok ==> KeptShaped(b) && Explained(why, old(turn))
      ensures ok && done ==> Kept(b, Final) && JustRenewed() && Answered()
      ensures ok && !done ==>
                && InSync(b, after, next) && Kept(b, after) && guard.idle <= 2
                && after.Answering? && after.done == |after.calls|
      ensures ok ==> Requests(sent) == Requests(old(sent)) + 1
      ensures old(log).appended <= log.appended
    {
      hide Kept, InSync, Budgeted, Requests, Explained;
      ok, done, next, after := false, false, c, shape;
      var ready, copy, ended := Prepare(b, shape, c);
      why := ended;
      assert KeptShaped(b);
      if !ready { return; }
      ghost var asked := turn;
      var reply;
      reply, ended := Ask(b, shape);
      why := ended;
      assert KeptShaped(b);
      if reply == None {
        StillExplained(why, old(turn), asked);
        return;
      }
      ghost var later := turn;
      ok, done, next, after, ended := Answer(b, shape, copy, reply.value, asked);
      why := ended;
      if !ok {
        StillExplained(why, old(turn), later);
      }
    }

    /** The last message is the reply to the last request, which asked for no tool. */
    ghost predicate Answered()
      reads this`log, this`sent
    {
      && sent != [] && sent[|sent| - 1].ForAnswer?
      && var reply := oracle.reply(sent[|sent| - 1].turn);
         && reply.calls == []
         && log.appended != []
         && log.appended[|log.appended| - 1] == Assistant(oracle.strip(reply.content), [])
    }

    /** The reply is stored: as the final answer, or as a group of calls that are run. */
    method Answer(ghost b: Begin, ghost shape: Shape, c: Conversation, reply: Reply, ghost asked: nat)
      returns (ok: bool, done: bool, next: Conversation, ghost after: Shape, ghost why: Why)
      requires InSync(b, shape, c) && JustRenewed() && reply == oracle.reply(asked)
      requires shape == Open || (shape.Answering? && shape.done == |shape.calls|)
      modifies this`turn, this`log, this`guard, store`now, store`locks
      modifies store`conversations, store`index, store`results, store`resultIndex
      ensures old(turn) <= turn
      ensures !ok ==> KeptShaped(b) && Explained(why, old(turn))
      ensures ok && done ==> Kept(b, Final) && JustRenewed()
      ensures ok && !done ==>
                && InSync(b, after, next) && Kept(b, after) && guard.idle <= 2
                && after.Answering? && after.done == |after.calls|
      ensures log.appended == old(log).appended
              || (if reply.calls == [] then log.appended == old(log).appended + [Assistant(oracle.strip(reply.content), [])]
                  else old(log).appended + [Assistant(reply.content, reply.calls)] <= log.appended)
      ensures ok ==> done == (reply.calls == [])
                     && |log.appended| == |old(log).appended| + 1 + |reply.calls|
      ensures log.tokens == old(log).tokens + reply.tokens
    {
      hide Accounts, ShapeOf, OthersKept, Indexed, ResultsIndexed, Guarded, Traced, IsAnswer;
      ok, done, after, why := false, false, shape, Why.Overtaken;
      next := SaveMetrics(b, shape, Telemetry, c, false, reply.tokens);
      var content := if reply.calls == [] then oracle.strip(reply.content) else reply.content;
      var stored := Append(b, shape, Kind.Reply, Said(asked), Assistant(content, reply.calls));
      if stored == None { return; }
      if reply.calls == [] {
        return true, true, next, Final, why;
      }
      var all := Calls(b, reply.calls);
      why := if StoppedIn(old(turn), turn) then Stopped else Why.Overtaken;
      if !all { return; }
      after := Answering(reply.calls, |reply.calls|);
      var found := store.GetConversation(owner, id);
      why := Why.Overtaken;
      if found.Failure? { return; }
      return true, false, found.value, after, why;
    }

    method ReserveFor(payload: string)
      requires context.Valid() && Budgeted()
      modifies context`runtimeReserve
      ensures context.Valid() && Budgeted() && context.runtimeReserve == |payload|
    {
      context.SetRuntimeReservations(payload);
    }

    /** At most `maxSteps` steps. */
    method Loop(ghost b: Begin, ghost opening: Shape, first: Conversation) returns (outcome: Outcome, ghost why: Why)
      requires opening == Open && InSync(b, opening, first) && Kept(b, opening) && guard.idle <= 3
      requires context.Valid() && Budgeted() && Requests(sent) == 0
      requires log.appended != [] && log.appended[0] == User(b.question)
      modifies this`turn, this`log, this`sent, this`guard, context`runtimeReserve, store`now, store`locks
      modifies store`conversations, store`index, store`results, store`resultIndex
      ensures context.Valid() && Budgeted() && old(turn) <= turn
      ensures KeptShaped(b)
      ensures outcome == Completed ==> Kept(b, Final) && JustRenewed() && Answered()
      ensures log.appended != [] && log.appended[0] == User(b.question)
      ensures outcome == Failed ==>
                if why == OutOfSteps then Requests(sent) == maxSteps else Explained(why, old(turn))
    {
      hide Kept, InSync, Budgeted, Requests, Answered, Explained;
      ghost var begun := turn;
      ghost var shape := opening;
      var c := first;
      why := OutOfSteps;
      assert KeptShaped(b);
      for i := 0 to maxSteps
        invariant InSync(b, shape, c) && Kept(b, shape) && guard.idle <= 3 && context.Valid() && Budgeted()
        invariant shape == Open || (shape.Answering? && shape.done == |shape.calls|)
        invariant log.appended != [] && log.appended[0] == User(b.question)
        invariant begun <= turn && Requests(sent) == i
      {
        ghost var from := turn;
        var ok, done, next, answered, ended := Step(b, shape, c);
        why := ended;
        if !ok {
          StillExplained(why, begun, from);
          return Failed, why;
        }
        assert done ==> KeptShaped(b);
        if done { return Completed, why; }
        c, shape := next, answered;
      }
      return Failed, OutOfSteps;
    }

    /** The run between acquiring and releasing the lock. */
    method Locked(ghost b: Begin, question: string) returns (outcome: Outcome, ghost why: Why)
      requires question == b.question
      requires Kept(b, ShapeOf(b.first.messages)) && WellShaped(b.first.messages)
      requires guard.idle == 0 && context.Valid() && Budgeted()
      requires log == NOTHING && sent == []
      modifies this`turn, this`log, this`sent, this`guard, context`runtimeReserve, store`now, store`locks
      modifies store`conversations, store`index, store`results, store`resultIndex
      ensures context.Valid() && Budgeted() && old(turn) <= turn
      ensures KeptShaped(b)
      ensures outcome == Completed ==> Kept(b, Final) && JustRenewed() && Answered()
      ensures outcome == Completed ==> log.appended != [] && log.appended[0] == User(b.question)
      ensures outcome == Failed ==> Explained(why, old(turn)) || (why == OutOfSteps && Requests(sent) == maxSteps)
    {
      ghost var shape := ShapeOf(b.first.messages);
      hide Kept, InSync, Accounts, ShapeOf, Budgeted, GetsIn, WantsCut, Asks, CutOf, Context.Compress,
        Context.CutPoint, RequestFor, Requests, Answered, Explained;
      assert KeptShaped(b);
      ghost var begun := turn;
      // The start is announced; then the provider is looked up.
      var stop := Pause(b, shape);
      why := Stopped;
      if stop { Explains(why, begun); return Failed, why; }
      stop := Pause(b, shape);
      if stop { Explains(why, begun); return Failed, why; }
      var asked := Append(b, shape, Question, Asked, User(question));
      why := Why.Overtaken;
      if asked == None { Explains(why, begun); return Failed, why; }
      shape := Open;
      var c := asked.value;
      ReserveFor(oracle.reserve(turn));
      NoRequests();
      c := Shorten(b, shape, c);
      ghost var after := turn;
      outcome, why := Loop(b, shape, c);
      if outcome == Failed && why != OutOfSteps {
        StillExplained(why, begun, after);
      }
    }

    lemma NoRequests()
      ensures Requests([]) == 0
    {
    }

    /**
     One run, against every behaviour of provider, tools, client, clock and other runs.
     Unless another run has got in, the stored conversation is the one the run found plus
     everything in the log, cut only at user messages, in the shape of rounds; and every
     message in the log is the question, a reply of the provider or the answer of a tool. A
     completed run ends with the reply to its last request; any other ends for a reason.
     Nobody gets in before the last save while every wait is brief, nor before that of a run
     that completes. Every save is booked, and says whether it was made under the lock. No
     other conversation is touched, and the lock is not left behind.
     */
    method Run(message: string) returns (outcome: Outcome, ghost why: Why)
      requires store.Valid() && context.Valid()
      requires log == NOTHING && sent == [] && guard.saves == [] && !guard.intruded
      requires Fair(oracle.stranger, token)
      // A UUID, drawn for this run.
      requires !RunLock.HeldBy(store.LockOf(owner, id), store.now, token)
      requires store.Stored(owner, id).Some? ==> WellShaped(store.Stored(owner, id).value.messages)
      modifies this, context`runtimeReserve, store`now, store`locks
      modifies store`conversations, store`index, store`results, store`resultIndex
      ensures store.Valid() && Budgeted()
      ensures !RunLock.HeldBy(store.LockOf(owner, id), store.now, token)
      ensures OthersKept(old(store.conversations), store.conversations, ConvKey(owner, id))
      ensures !Admitted(old(store.Stored(owner, id)), old(store.LockOf(owner, id)), old(store.now), message) ==>
                outcome == Failed && why == NotAdmitted && store.conversations == old(store.conversations)
      ensures old(store.Stored(owner, id)).Some? && store.Stored(owner, id).Some? && !guard.intruded ==>
                && Accounts(old(store.Stored(owner, id)).value, store.Stored(owner, id).value, log)
                && WellShaped(store.Stored(owner, id).value.messages)
                && (outcome == Completed ==> ShapeOf(store.Stored(owner, id).value.messages) == Final)
      ensures Traced(log, message[..Context.Min(8000, |message|)])
      ensures SavesTell(guard, token)
      ensures Admitted(old(store.Stored(owner, id)), old(store.LockOf(owner, id)), old(store.now), message) ==>
                && Along(guard, store.now, store.LockOf(owner, id)) && Disciplined(guard, token)
                && (outcome == Failed ==> Reasoned(why, old(turn)))
      ensures Brief() ==> AloneWhileSaving(guard, token) && forall s :: s in guard.saves ==> s.at < s.renewed + LOCK_TTL
      ensures outcome == Completed ==>
                && AloneWhileSaving(guard, token) && (Brief() ==> !guard.intruded)
                && Answered()
                && log.appended != [] && log.appended[0] == User(message[..Context.Min(8000, |message|)])
    {
      hide Accounts, ShapeOf, OthersKept, Indexed, ResultsIndexed, Along, Disciplined, SavesTell, Drawn, Fair, Requests,
        Answered;
      outcome, why := Failed, NotAdmitted;
      ghost var found := store.Stored(owner, id);
      OthersAtFirst(store.conversations, ConvKey(owner, id));
      NoSaves(guard, token);
      if found.Some? { AccountsAtFirst(found.value); }
      if message == "" {
        return;
      }
      var r := store.AcquireRunLock(owner, id, token, LOCK_TTL);
      if r.Failure? {
        return;
      }
      guard := Acquired(token, store.now);
      AcquiredKeeps(token, store.now, oracle.stranger, turn);
      var first := store.GetConversation(owner, id);
      ghost var b := Begin(first.value, store.conversations, message[..Context.Min(8000, |message|)]);
      outcome, why := Locked(b, message[..Context.Min(8000, |message|)]);
      Leave(b);
    }

    /** Why a run that held the lock ended without an answer. */
    ghost predicate Reasoned(why: Why, from: nat)
      reads this`turn, this`sent, this`guard, store`now
    {
      match why
      case Stopped => StoppedIn(from, turn)
      case Overtaken => true
      case OverBudget => guard.saves != [] && guard.saves[|guard.saves| - 1].kind.Refusal?
      case OutOfSteps => Requests(sent) == maxSteps
      case NotAdmitted => false
    }

    predicate Admitted(found: Option<Conversation>, lock: Option<RunLock.Lock>, now: int, message: string) {
      message != "" && found.Some? && RunLock.Free(lock, now)
    }
  }
}

/**
 The Redis-backed agent store. Redis is a set of maps whose entries carry an expiry time;
 an expired entry counts as missing. Each method happens at one instant of the clock, and
 time passes between methods.
 */
module AgentStorage {
  import opened Wrappers
  import opened Transcript
  import RunLock

  // Conversations and result sets are named by random UUIDs of one length, so their byte
  // order is the order of numbers.
  type ConvId = nat
  type ResultId = nat

  const MAX_EVENTS := 200

  datatype Event = Event(kind: string, detail: string)

  /** The counters kept under provider_observability. */
  datatype Metrics = Metrics(attempts: nat, accepted: nat, failures: nat, tokens: int)

  /** The authoritative state of a conversation, apart from its messages. */
  datatype State = State(lastResult: Option<ResultId>, metrics: Metrics)

  datatype Conversation = Conversation(
    owner: string, id: ConvId, messages: seq<Message>, summary: string,
    events: seq<Event>, state: State, updatedAt: int)

  datatype ResultSet = ResultSet(owner: string, conversation: ConvId, kind: string, rows: seq<string>)

  datatype ConvKey = ConvKey(owner: string, id: ConvId)
  datatype ResKey = ResKey(owner: string, id: ResultId)

  datatype Cell<T> = Cell(value: T, expires: int)

  datatype StoreError = NotFound | Conflict

  // ---------------------------------------------------------------- the conversation index

  /** The order of a sorted set: by score, then by member. */
  predicate Before(index: map<ConvId, int>, a: ConvId, b: ConvId)
    requires a in index && b in index
  {
    index[a] < index[b] || (index[a] == index[b] && a < b)
  }

  /** `kept` is `index` without all but its `n` greatest members. */
  ghost predicate IsTop(kept: map<ConvId, int>, index: map<ConvId, int>, n: nat) {
    && (forall c :: c in kept ==> c in index && kept[c] == index[c])
    && |kept| == (if |index| < n then |index| else n)
    && (forall c, d :: c in kept && d in index && d !in kept ==> Before(index, d, c))
  }

  lemma TopMeans(kept: map<ConvId, int>, was: map<ConvId, int>, n: nat)
    requires IsTop(kept, was, n)
    ensures forall c :: c in kept ==> c in was && kept[c] == was[c]
    ensures |kept| == if |was| < n then |was| else n
    ensures forall c, d :: c in kept && d in was && d !in kept ==> was[d] < was[c] || (was[d] == was[c] && d < c)
  {
  }

  lemma Smaller<T>(s: set<T>, t: set<T>, x: T)
    requires s <= t && x in t && x !in s
    ensures |s| < |t|
  {
    assert |t| == |t - s| + |s|;
    assert x in t - s;
  }

  lemma TopContains(a: map<ConvId, int>, b: map<ConvId, int>, index: map<ConvId, int>, n: nat, c: ConvId)
    requires IsTop(a, index, n) && IsTop(b, index, n) && c in a
    ensures c in b
  {
    if c !in b {
      assert !(b.Keys <= a.Keys) by {
        if b.Keys <= a.Keys { Smaller(b.Keys, a.Keys, c); }
      }
      var d :| d in b.Keys && d !in a.Keys;
      assert false;
    }
  }

  /** There is only one such index. */
  lemma TopIsUnique(a: map<ConvId, int>, b: map<ConvId, int>, index: map<ConvId, int>, n: nat)
    requires IsTop(a, index, n) && IsTop(b, index, n)
    ensures a == b
  {
    forall c ensures c in a <==> c in b {
      if c in a { TopContains(a, b, index, n, c); }
      if c in b { TopContains(b, a, index, n, c); }
    }
  }

  /** The entries with a greater score, or with this score and a greater id. */
  ghost function Above(index: map<ConvId, int>, c: ConvId): set<ConvId>
    requires c in index
  {
    set d | d in index && (index[d] > index[c] || (index[d] == index[c] && d > c))
  }

  /** Who stays: the entries with fewer than `n` entries above them. */
  lemma StaysIff(kept: map<ConvId, int>, index: map<ConvId, int>, n: nat, c: ConvId)
    requires IsTop(kept, index, n) && c in index
    ensures c in kept <==> |Above(index, c)| < n
  {
    var above := Above(index, c);
    if c in kept {
      assert above <= kept.Keys - {c};
      SubsetSize(above, kept.Keys - {c});
    } else {
      assert kept.Keys <= above;
      SubsetSize(kept.Keys, above);
      Smaller(kept.Keys, index.Keys, c);
      assert |kept.Keys| == |kept| && |index.Keys| == |index|;
    }
  }

  lemma SubsetSize<T>(s: set<T>, t: set<T>)
    requires s <= t
    ensures |s| <= |t|
  {
    assert t == s + (t - s);
  }

  /** ZRANGE index 0 0. */
  method Oldest(index: map<ConvId, int>) returns (oldest: ConvId)
    requires index != map[]
    ensures oldest in index
    ensures forall c :: c in index && c != oldest ==> Before(index, oldest, c)
  {
    var rest := index.Keys;
    assert exists c :: c in rest by { assert |index| != 0; }
    oldest :| oldest in rest;
    rest := rest - {oldest};
    while rest != {}
      invariant rest <= index.Keys && oldest in index
      invariant forall c :: c in index && c !in rest && c != oldest ==> Before(index, oldest, c)
    {
      var c :| c in rest;
      rest := rest - {c};
      if Before(index, c, oldest) {
        oldest := c;
      }
    }
  }

  function LiveIndex(index: map<string, Cell<map<ConvId, int>>>, owner: string, now: int): map<ConvId, int> {
    if owner in index && now < index[owner].expires then index[owner].value else map[]
  }

  /** The last 200 of a list. */
  function Recent(events: seq<Event>): (r: seq<Event>)
    ensures |r| == if |events| < 200 then |events| else 200
    ensures forall i :: 0 <= i < |r| ==> r[i] == events[|events| - |r| + i]
  {
    if |events| <= MAX_EVENTS then events else events[|events| - MAX_EVENTS..]
  }

  /** Trimming at every append keeps the same events as trimming once at the end. */
  lemma RecentAppend(events: seq<Event>, e: Event)
    ensures Recent(Recent(events) + [e]) == Recent(events + [e])
  {
  }

  // ---------------------------------------------------------------- agreement with expiry

  type Conversations = map<ConvKey, Cell<Conversation>>
  type Index = map<string, Cell<map<ConvId, int>>>
  type Results = map<ResKey, Cell<ResultSet>>
  type ResultIndex = map<ConvKey, Cell<set<ResultId>>>

  /** A live conversation is in its owner's index, which does not expire before it. */
  ghost predicate Indexed(cs: Conversations, index: Index, now: int, ttl: nat) {
    forall k :: k in cs ==>
      && cs[k].expires <= now + ttl
      && cs[k].value.owner == k.owner && cs[k].value.id == k.id
      && (now < cs[k].expires ==>
            && k.owner in index && cs[k].expires <= index[k.owner].expires
            && k.id in index[k.owner].value)
  }

  /** A live result set is in its conversation's index, which does not expire before it
      and names results of that conversation only. */
  ghost predicate ResultsIndexed(rs: Results, ri: ResultIndex, now: int, ttl: nat) {
    && (forall r :: r in rs ==>
          && rs[r].expires <= now + ttl && rs[r].value.owner == r.owner
          && (now < rs[r].expires ==>
                var k := ConvKey(r.owner, rs[r].value.conversation);
                k in ri && rs[r].expires <= ri[k].expires && r.id in ri[k].value))
    && (forall k, id :: k in ri && id in ri[k].value && ResKey(k.owner, id) in rs ==>
          rs[ResKey(k.owner, id)].value.conversation == k.id)
  }

  function LiveMembers(ri: ResultIndex, k: ConvKey, now: int): set<ResultId> {
    if k in ri && now < ri[k].expires then ri[k].value else {}
  }

  function Without(rs: Results, owner: string, ids: set<ResultId>): Results {
    map r | r in rs && !(r.owner == owner && r.id in ids) :: rs[r]
  }

  ghost predicate LiveResultOf(rs: Results, r: ResKey, now: int, k: ConvKey) {
    r in rs && now < rs[r].expires && r.owner == k.owner && rs[r].value.conversation == k.id
  }

  /** Deleting the members of the index and the index leaves no live result behind, and
      takes no result of another conversation. */
  lemma DeleteResults(rs: Results, ri: ResultIndex, now: int, ttl: nat, k: ConvKey)
    requires ResultsIndexed(rs, ri, now, ttl)
    ensures var rest := Without(rs, k.owner, LiveMembers(ri, k, now));
            && ResultsIndexed(rest, ri - {k}, now, ttl)
            && (forall r :: !LiveResultOf(rest, r, now, k))
            && (forall r :: r in rs && r !in rest ==> r.owner == k.owner && rs[r].value.conversation == k.id)
  {
  }

  lemma PutIndexed(cs: Conversations, index: Index, now: int, ttl: nat, c: Conversation)
    requires Indexed(cs, index, now, ttl)
    ensures Indexed(cs[ConvKey(c.owner, c.id) := Cell(c, now + ttl)],
                    index[c.owner := Cell(LiveIndex(index, c.owner, now)[c.id := c.updatedAt], now + ttl)],
                    now, ttl)
  {
  }

  lemma UnindexDead(cs: Conversations, index: Index, now: int, ttl: nat, k: ConvKey)
    requires Indexed(cs, index, now, ttl) && (k in cs ==> cs[k].expires <= now)
    ensures Indexed(cs, Unindexed(index, k.owner, k.id, now), now, ttl)
  {
  }

  lemma LiveAreIndexed(cs: Conversations, index: Index, now: int, ttl: nat, owner: string)
    requires Indexed(cs, index, now, ttl)
    ensures forall k :: k in cs && now < cs[k].expires && k.owner == owner ==> k.id in LiveIndex(index, owner, now)
  {
  }

  lemma AddResult(rs: Results, ri: ResultIndex, now: int, ttl: nat, k: ConvKey, id: ResultId, r: ResultSet)
    requires ResultsIndexed(rs, ri, now, ttl)
    requires r.owner == k.owner && r.conversation == k.id && ResKey(k.owner, id) !in rs
    requires forall j :: j in ri && j.owner == k.owner ==> id !in ri[j].value
    ensures ResultsIndexed(rs[ResKey(k.owner, id) := Cell(r, now + ttl)],
                           ri[k := Cell(LiveMembers(ri, k, now) + {id}, now + ttl)], now, ttl)
  {
  }

  lemma DeleteIndexed(cs: Conversations, index: Index, now: int, ttl: nat, k: ConvKey)
    requires Indexed(cs, index, now, ttl)
    ensures Indexed(cs - {k}, Unindexed(index, k.owner, k.id, now), now, ttl)
  {
  }

  /** ZREM. */
  function Unindexed(index: Index, owner: string, id: ConvId, now: int): Index {
    if owner in index && now < index[owner].expires
    then index[owner := Cell(index[owner].value - {id}, index[owner].expires)]
    else index
  }

  // ---------------------------------------------------------------- the store

  class AgentStore {
    const ttl: nat
    const maxConversations: nat
    var now: int
    var conversations: Conversations
    var index: Index
    var results: Results
    var resultIndex: ResultIndex
    var locks: map<ConvKey, RunLock.Lock>

    /** No entry outlives a full TTL from now, and the indexes agree with the entries. */
    ghost predicate Valid()
      reads this`now, this`conversations, this`index, this`results, this`resultIndex
    {
      && ttl > 0
      && Indexed(conversations, index, now, ttl)
      && ResultsIndexed(results, resultIndex, now, ttl)
    }

    /** What GET finds. */
    function Stored(owner: string, id: ConvId): Option<Conversation>
      reads this`conversations, this`now
    {
      var k := ConvKey(owner, id);
      if k in conversations && now < conversations[k].expires then Some(conversations[k].value) else None
    }

    function LockOf(owner: string, id: ConvId): Option<RunLock.Lock>
      reads this`locks
    {
      var k := ConvKey(owner, id);
      if k in locks then Some(locks[k]) else None
    }

    constructor (ttl: nat, maxConversations: nat, now: int)
      requires ttl > 0
      ensures Valid() && this.ttl == ttl && this.maxConversations == maxConversations
    {
      this.ttl, this.maxConversations, this.now := ttl, maxConversations, now;
      conversations, index, results, resultIndex, locks := map[], map[], map[], map[], map[];
    }

    method Tick(seconds: nat)
      requires Valid()
      modifies this`now
      ensures Valid() && now == old(now) + seconds
    {
      now := now + seconds;
    }

    method GetConversation(owner: string, id: ConvId) returns (r: Result<Conversation, StoreError>)
      requires Valid()
      ensures Stored(owner, id).Some? ==> r == Success(Stored(owner, id).value)
      ensures Stored(owner, id).None? ==> r == Failure(NotFound)
      ensures var k := ConvKey(owner, id);
              && (r.Success? <==> k in conversations && now < conversations[k].expires)
              && (r.Success? ==> r.value == conversations[k].value)
      ensures r.Success? ==> r.value.owner == owner && r.value.id == id
    {
      var found := Stored(owner, id);
      if found.None? || found.value.owner != owner {
        return Failure(NotFound);
      }
      return Success(found.value);
    }

    /** Writes the value under the key its own fields name, and indexes it. */
    method Put(conversation: Conversation)
      requires Valid()
      modifies this`conversations, this`index
      ensures Valid()
      ensures conversations == old(conversations)[ConvKey(conversation.owner, conversation.id)
                                                    := Cell(conversation, now + ttl)]
      ensures index == old(index)[conversation.owner := Cell(
                LiveIndex(old(index), conversation.owner, now)[conversation.id := conversation.updatedAt],
                now + ttl)]
    {
      hide Indexed, ResultsIndexed;
      PutIndexed(conversations, index, now, ttl, conversation);
      conversations := conversations[ConvKey(conversation.owner, conversation.id)
                                       := Cell(conversation, now + ttl)];
      var members := LiveIndex(index, conversation.owner, now);
      members := members[conversation.id := conversation.updatedAt];
      index := index[conversation.owner := Cell(members, now + ttl)];
    }

    /** A whole-conversation save. */
    method SaveConversation(owner: string, conversation: Conversation)
      returns (r: Result<Conversation, StoreError>)
      requires Valid()
      modifies this`conversations, this`index
      ensures Valid()
      ensures conversation.owner != owner ==>
                r == Failure(NotFound) && conversations == old(conversations) && index == old(index)
      ensures conversation.owner == owner ==>
                && r == Success(conversation.(updatedAt := now))
                && conversations == old(conversations)[ConvKey(owner, conversation.id)
                                                         := Cell(r.value, now + ttl)]
    {
      hide Indexed, ResultsIndexed;
      if conversation.owner != owner {
        return Failure(NotFound);
      }
      var saved := conversation.(updatedAt := now);
      Put(saved);
      return Success(saved);
    }

    /** Read, append, write. */
    method AppendMessage(owner: string, id: ConvId, message: Message)
      returns (r: Result<Conversation, StoreError>)
      requires Valid()
      modifies this`conversations, this`index
      ensures Valid()
      ensures old(Stored(owner, id)).None? ==>
                r == Failure(NotFound) && conversations == old(conversations)
      ensures old(Stored(owner, id)).Some? ==>
                var was := old(Stored(owner, id)).value;
                && r.Success? && r.value.owner == owner && r.value.id == id
                && r == Success(was.(messages := was.messages + [message], updatedAt := now))
                && conversations == old(conversations)[ConvKey(owner, id) := Cell(r.value, now + ttl)]
    {
      hide Indexed, ResultsIndexed;
      r := GetConversation(owner, id);
      if r.Success? {
        r := SaveConversation(owner, r.value.(messages := r.value.messages + [message]));
      }
    }

    method AppendEvent(owner: string, id: ConvId, event: Event)
      returns (r: Result<Conversation, StoreError>)
      requires Valid()
      modifies this`conversations, this`index
      ensures Valid()
      ensures old(Stored(owner, id)).None? ==>
                r == Failure(NotFound) && conversations == old(conversations)
      ensures old(Stored(owner, id)).Some? ==>
                var was := old(Stored(owner, id)).value;
                && r.Success? && r.value.owner == owner && r.value.id == id
                && r == Success(was.(events := Recent(was.events + [event]), updatedAt := now))
                && r.value.events[|r.value.events| - 1] == event
                && conversations == old(conversations)[ConvKey(owner, id) := Cell(r.value, now + ttl)]
    {
      hide Indexed, ResultsIndexed;
      r := GetConversation(owner, id);
      if r.Success? {
        r := SaveConversation(owner, r.value.(events := Recent(r.value.events + [event])));
      }
    }

    // ------------------------------------------------------------ the run lock

    method AcquireRunLock(owner: string, id: ConvId, token: RunLock.Token, lockTtl: int)
      returns (r: Result<RunLock.Token, StoreError>)
      requires Valid()
      modifies this`locks
      ensures Stored(owner, id).None? ==> r == Failure(NotFound) && locks == old(locks)
      ensures Stored(owner, id).Some? ==>
                && LockOf(owner, id) == RunLock.Acquired(old(LockOf(owner, id)), now, token, lockTtl)
                && r == (if RunLock.Free(old(LockOf(owner, id)), now) then Success(token) else Failure(Conflict))
      ensures forall k :: k != ConvKey(owner, id) ==>
                (k in locks <==> k in old(locks)) && (k in locks ==> locks[k] == old(locks)[k])
    {
      hide Indexed, ResultsIndexed;
      var c := GetConversation(owner, id);
      if c.Failure? {
        return Failure(c.error);
      }
      var k := ConvKey(owner, id);
      if k in locks && now < locks[k].expires {
        return Failure(Conflict);
      }
      locks := locks[k := RunLock.Lock(token, now + if lockTtl < 30 then 30 else lockTtl)];
      return Success(token);
    }

    method ReleaseRunLock(owner: string, id: ConvId, token: RunLock.Token)
      modifies this`locks
      ensures LockOf(owner, id) == RunLock.Released(old(LockOf(owner, id)), now, token)
      ensures forall k :: k != ConvKey(owner, id) ==>
                (k in locks <==> k in old(locks)) && (k in locks ==> locks[k] == old(locks)[k])
    {
      var k := ConvKey(owner, id);
      if k in locks && now < locks[k].expires && locks[k].token == token {
        locks := locks - {k};
      }
    }

    method RefreshRunLock(owner: string, id: ConvId, token: RunLock.Token, lockTtl: int)
      returns (ok: bool)
      modifies this`locks
      ensures LockOf(owner, id) == RunLock.Refreshed(old(LockOf(owner, id)), now, token, lockTtl)
      ensures ok <==> RunLock.HeldBy(old(LockOf(owner, id)), now, token)
      ensures forall k :: k != ConvKey(owner, id) ==>
                (k in locks <==> k in old(locks)) && (k in locks ==> locks[k] == old(locks)[k])
    {
      var k := ConvKey(owner, id);
      ok := k in locks && now < locks[k].expires && locks[k].token == token;
      if ok {
        locks := locks[k := RunLock.Lock(token, now + if lockTtl < 30 then 30 else lockTtl)];
      }
    }

    // ------------------------------------------------------------ result sets

    method CreateResultSet(owner: string, id: ConvId, resultId: ResultId, kind: string, rows: seq<string>)
      returns (r: Result<ResultId, StoreError>)
      requires Valid()
      // A UUID, drawn for this call.
      requires ResKey(owner, resultId) !in results
      requires forall k :: k in resultIndex && k.owner == owner ==> resultId !in resultIndex[k].value
      modifies this`results, this`resultIndex
      ensures Valid()
      ensures Stored(owner, id).None? ==>
                r == Failure(NotFound) && results == old(results) && resultIndex == old(resultIndex)
      ensures Stored(owner, id).Some? ==>
                && r == Success(resultId)
                && results == old(results)[ResKey(owner, resultId)
                                             := Cell(ResultSet(owner, id, kind, rows), now + ttl)]
                && var k := ConvKey(owner, id);
                   var live := k in old(resultIndex) && now < old(resultIndex)[k].expires;
                   resultIndex == old(resultIndex)[k := Cell((if live then old(resultIndex)[k].value else {}) + {resultId},
                                                             now + ttl)]
    {
      hide Indexed, ResultsIndexed;
      var c := GetConversation(owner, id);
      if c.Failure? {
        return Failure(c.error);
      }
      var k := ConvKey(owner, id);
      AddResult(results, resultIndex, now, ttl, k, resultId, ResultSet(owner, id, kind, rows));
      results := results[ResKey(owner, resultId) := Cell(ResultSet(owner, id, kind, rows), now + ttl)];
      var members := LiveMembers(resultIndex, k, now);
      resultIndex := resultIndex[k := Cell(members + {resultId}, now + ttl)];
      return Success(resultId);
    }

    // ------------------------------------------------------------ deletion and eviction

    method DeleteConversation(owner: string, id: ConvId) returns (r: Result<(), StoreError>)
      requires Valid()
      modifies this`conversations, this`index, this`results, this`resultIndex
      ensures Valid()
      ensures old(Stored(owner, id)).None? ==>
                && r == Failure(NotFound) && conversations == old(conversations) && index == old(index)
                && results == old(results) && resultIndex == old(resultIndex)
      ensures old(Stored(owner, id)).Some? ==>
                && r == Success(())
                && conversations == old(conversations) - {ConvKey(owner, id)}
                && index == Unindexed(old(index), owner, id, now)
                && results == Without(old(results), owner, LiveMembers(old(resultIndex), ConvKey(owner, id), now))
                && (forall k :: !LiveResultOf(results, k, now, ConvKey(owner, id)))
      ensures old(Stored(owner, id)).Some? ==>
                && owner in old(index) && now < old(index)[owner].expires
                && index == old(index)[owner := Cell(old(index)[owner].value - {id}, old(index)[owner].expires)]
                && resultIndex == old(resultIndex) - {ConvKey(owner, id)}
                && LiveIndex(index, owner, now) == LiveIndex(old(index), owner, now) - {id}
                && (forall o :: o in old(index) && o != owner ==> o in index && index[o] == old(index)[o])
                && (forall k :: k in results ==>
                      && k in old(results) && results[k] == old(results)[k]
                      && !(k.owner == owner && results[k].value.conversation == id && now < results[k].expires))
                && (forall k :: k in old(results) && k !in results ==>
                      k.owner == owner && old(results)[k].value.conversation == id)
    {
      hide Indexed, ResultsIndexed;
      var c := GetConversation(owner, id);
      if c.Failure? {
        return Failure(c.error);
      }
      var k := ConvKey(owner, id);
      LiveAreIndexed(conversations, index, now, ttl, owner);
      DeleteResults(results, resultIndex, now, ttl, k);
      DeleteIndexed(conversations, index, now, ttl, k);
      results := Without(results, owner, LiveMembers(resultIndex, k, now));
      resultIndex := resultIndex - {k};
      conversations := conversations - {k};
      index := Unindexed(index, owner, id, now);
      return Success(());
    }

    /** One turn of the eviction loop. */
    method Evict(owner: string, oldest: ConvId)
      requires Valid() && oldest in LiveIndex(index, owner, now)
      modifies this`conversations, this`index, this`results, this`resultIndex
      ensures Valid()
      ensures index == Unindexed(old(index), owner, oldest, now)
      ensures conversations == if old(Stored(owner, oldest)).Some?
                               then old(conversations) - {ConvKey(owner, oldest)}
                               else old(conversations)
    {
      hide Indexed, ResultsIndexed;
      var c := GetConversation(owner, oldest);
      if c.Failure? {
        UnindexDead(conversations, index, now, ttl, ConvKey(owner, oldest));
        index := Unindexed(index, owner, oldest, now);
      } else {
        var _ := DeleteConversation(owner, oldest);
      }
    }

    /**
     Eviction: while the index holds too many, take its oldest member; a member whose
     conversation is gone is only removed from the index, a live one is deleted with its
     results. What stays are the greatest members by score and id.
     */
    method EvictDown(owner: string)
      requires Valid()
      modifies this`conversations, this`index, this`results, this`resultIndex
      ensures Valid()
      ensures IsTop(LiveIndex(index, owner, now), LiveIndex(old(index), owner, now), maxConversations)
      ensures EvictedFrom(conversations, index, old(conversations), old(index), owner, now)
    {
      LiveAreIndexed(conversations, index, now, ttl, owner);
      var all := LiveIndex(index, owner, now);
      EvictedIsTop(all, all, maxConversations);
      assert EvictedFrom(conversations, index, old(conversations), old(index), owner, now);
      hide Indexed, ResultsIndexed, Evicting, IsTop, EvictedFrom;
      while |LiveIndex(index, owner, now)| > maxConversations
        invariant Valid()
        invariant Evicting(LiveIndex(index, owner, now), all, maxConversations)
        invariant EvictedFrom(conversations, index, old(conversations), old(index), owner, now)
        decreases |LiveIndex(index, owner, now)|
      {
        var members := LiveIndex(index, owner, now);
        var oldest := Oldest(members);
        EvictOldest(members, all, maxConversations, oldest);
        EvictedMore(conversations, index, old(conversations), old(index), owner, now, oldest);
        Evict(owner, oldest);
      }
      EvictedIsTop(LiveIndex(index, owner, now), all, maxConversations);
    }

    /** What stays are the `maxConversations` greatest entries by score and id, and exactly the
        live conversations that fell out are gone. */
    method CleanupOldConversations(owner: string)
      requires Valid()
      modifies this`conversations, this`index, this`results, this`resultIndex
      ensures Valid()
      ensures IsTop(LiveIndex(index, owner, now), LiveIndex(old(index), owner, now), maxConversations)
      ensures var was, kept := LiveIndex(old(index), owner, now), LiveIndex(index, owner, now);
              && (forall c :: c in kept ==> c in was && kept[c] == was[c])
              && |kept| == (if |was| < maxConversations then |was| else maxConversations)
              && (forall c, d :: c in kept && d in was && d !in kept ==> was[d] < was[c] || (was[d] == was[c] && d < c))
      ensures EvictedFrom(conversations, index, old(conversations), old(index), owner, now)
    {
      hide Indexed, ResultsIndexed, LiveIndex, EvictedFrom, IsTop;
      EvictDown(owner);
      TopMeans(LiveIndex(index, owner, now), LiveIndex(old(index), owner, now), maxConversations);
    }

    method CreateConversation(owner: string, id: ConvId) returns (c: Conversation)
      requires Valid() && ConvKey(owner, id) !in conversations
      modifies this`conversations, this`index, this`results, this`resultIndex
      ensures Valid()
      ensures c == Conversation(owner, id, [], "", [], State(None, Metrics(0, 0, 0, 0)), now)
      ensures IsTop(LiveIndex(index, owner, now),
                    LiveIndex(old(index), owner, now)[id := now], maxConversations)
      ensures Stored(owner, id) == if id in LiveIndex(index, owner, now) then Some(c) else None
      ensures maxConversations >= 1
              && (forall d :: d in LiveIndex(old(index), owner, now) && d != id ==>
                    LiveIndex(old(index), owner, now)[d] < now)
              ==> Stored(owner, id) == Some(c)
      ensures forall k :: k != ConvKey(owner, id) && k in old(conversations) && now < old(conversations)[k].expires ==>
                if k.owner == owner && k.id !in LiveIndex(index, owner, now) then k !in conversations
                else k in conversations && conversations[k] == old(conversations)[k]
    {
      hide Indexed, ResultsIndexed;
      c := Conversation(owner, id, [], "", [], State(None, Metrics(0, 0, 0, 0)), now);
      Put(c);
      ghost var all := LiveIndex(index, owner, now);
      CleanupOldConversations(owner);
      StaysIff(LiveIndex(index, owner, now), all, maxConversations, id);
      if forall d :: d in all && d != id ==> all[d] < now {
        assert Above(all, id) == {};
      }
    }
  }

  /** Exactly the live conversations of `owner` that fell out of the index are gone, and
      nothing else has changed. */
  ghost predicate EvictedFrom(cs: Conversations, index: Index, cs0: Conversations, index0: Index,
                              owner: string, now: int) {
    && (forall k :: k in cs ==> k in cs0 && cs[k] == cs0[k])
    && (forall k :: k in cs0 && now < cs0[k].expires ==>
          (k !in cs <==> k.owner == owner && k.id !in LiveIndex(index, owner, now)))
    && (forall o :: o != owner ==> (o in index <==> o in index0) && (o in index ==> index[o] == index0[o]))
  }

  lemma EvictedMore(cs: Conversations, index: Index, cs0: Conversations, index0: Index,
                    owner: string, now: int, oldest: ConvId)
    requires EvictedFrom(cs, index, cs0, index0, owner, now) && oldest in LiveIndex(index, owner, now)
    ensures LiveIndex(Unindexed(index, owner, oldest, now), owner, now) == LiveIndex(index, owner, now) - {oldest}
    ensures var k := ConvKey(owner, oldest);
            var rest := if k in cs && now < cs[k].expires then cs - {k} else cs;
            EvictedFrom(rest, Unindexed(index, owner, oldest, now), cs0, index0, owner, now)
  {
    var k := ConvKey(owner, oldest);
    var rest := if k in cs && now < cs[k].expires then cs - {k} else cs;
    var index' := Unindexed(index, owner, oldest, now);
    forall j | j in cs0 && now < cs0[j].expires
      ensures j !in rest <==> j.owner == owner && j.id !in LiveIndex(index', owner, now)
    {
      if j == k { assert j in cs ==> cs[j] == cs0[j]; }
    }
  }

  /** The loop's invariant: only the smallest members are gone, never more than needed. */
  ghost predicate Evicting(members: map<ConvId, int>, all: map<ConvId, int>, n: nat) {
    && (forall c :: c in members ==> c in all && members[c] == all[c])
    && (forall c, d :: c in members && d in all && d !in members ==> Before(all, d, c))
    && (|members| == |all| || |members| >= n)
    && |members| <= |all|
  }

  lemma EvictOldest(members: map<ConvId, int>, all: map<ConvId, int>, n: nat, oldest: ConvId)
    requires Evicting(members, all, n) && |members| > n
    requires oldest in members && forall c :: c in members && c != oldest ==> Before(members, oldest, c)
    ensures Evicting(members - {oldest}, all, n)
    ensures |members - {oldest}| == |members| - 1
  {
    var rest := members - {oldest};
    assert rest.Keys == members.Keys - {oldest};
    assert |rest| == |rest.Keys| && |members| == |members.Keys|;
    forall c, d | c in rest && d in all && d !in rest ensures Before(all, d, c) {
      if d == oldest { assert Before(members, oldest, c); }
    }
  }

  lemma EvictedIsTop(members: map<ConvId, int>, all: map<ConvId, int>, n: nat)
    ensures Evicting(all, all, n)
    ensures Evicting(members, all, n) && |members| <= n ==> IsTop(members, all, n)
  {
  }
}

/** Answering a query from the store, filtered by the documents. */
module KnowledgeSearch {
  import opened Wrappers
  import opened KnowledgeIndex
  import opened KnowledgeChunks
  import opened KnowledgeSafety
  import opened KnowledgeTheorems
  import opened RankFusion
  import Utf8

  const CHUNK_SIZE := 400
  const MAX_RESULTS := 8
  const MAX_CONTEXT_BYTES := 16 * 1024
  const MAX_QUERY := 512
  const MAX_HEADING := 128

  datatype Item = Item(citation: nat, document: DocId, version: nat, title: string, sourceType: string,
                       sourceRef: string, heading: string, scope: string, excerpt: string, score: real)

  datatype SearchError = InvalidQuery | InvalidLimit

  /** The hit names an approved document in scope, at its current version, published
      under the configured fingerprint. */
  predicate Valid(docs: Docs, scopes: seq<string>, fp: Fingerprint, h: Hit) {
    && h.value.document in docs
    && docs[h.value.document].approved
    && docs[h.value.document].body.scope in scopes
    && h.value.version == docs[h.value.document].version
    && docs[h.value.document].indexedFp == Some(fp)
  }

  ghost function ValidHits(docs: Docs, scopes: seq<string>, fp: Fingerprint, hits: seq<Hit>): seq<Hit> {
    if hits == [] then []
    else
      var n := |hits| - 1;
      ValidHits(docs, scopes, fp, hits[..n]) + (if Valid(docs, scopes, fp, hits[n]) then [hits[n]] else [])
  }

  function Excerpt(sanitize: string -> string, text: string): (r: string)
    ensures |r| <= CHUNK_SIZE && r <= sanitize(text)
  {
    Take(sanitize(text), CHUNK_SIZE)
  }

  function ToItem(sanitize: string -> string, docs: Docs, h: Hit, citation: nat): Item
    requires h.value.document in docs
  {
    var d := docs[h.value.document];
    var heading := if h.value.heading != "" then h.value.heading else d.body.title;
    Item(citation, h.value.document, d.version, d.body.title, d.body.sourceType, d.body.sourceRef,
         Take(sanitize(heading), MAX_HEADING),
         d.body.scope, Excerpt(sanitize, h.value.text), h.score)
  }

  /** The items are these hits, cited K1, K2, ... in order. */
  ghost predicate Cites(sanitize: string -> string, docs: Docs, items: seq<Item>, hits: seq<Hit>) {
    && |items| == |hits|
    && forall i :: 0 <= i < |hits| ==>
         hits[i].value.document in docs && items[i] == ToItem(sanitize, docs, hits[i], i + 1)
  }

  /** What an item says, written out: the columns of its document, the score of its hit, and
      as much of the sanitized heading and text as fits. */
  ghost predicate ItemSays(sanitize: string -> string, item: Item, d: Document, h: Hit, n: nat) {
    var heading, text := sanitize(if h.value.heading != "" then h.value.heading else d.body.title),
                         sanitize(h.value.text);
    && item.citation == n + 1 && item.document == h.value.document && item.version == d.version
    && item.title == d.body.title && item.sourceType == d.body.sourceType && item.sourceRef == d.body.sourceRef
    && item.scope == d.body.scope && item.score == h.score
    && item.heading <= heading && |item.heading| == (if |heading| < 128 then |heading| else 128)
    && item.excerpt <= text && |item.excerpt| == (if |text| < 400 then |text| else 400)
  }

  /** The hit may be cited: written out. */
  ghost predicate MayCite(docs: Docs, scopes: seq<string>, fp: Fingerprint, h: Hit) {
    h.value.document in docs
    && var d := docs[h.value.document];
       d.approved && d.body.scope in scopes && d.version == h.value.version && d.indexedFp == Some(fp)
  }

  /** The items are of the hits at these places, which are the first `cap` that may be cited:
      every other hit before the last of them, and after it too if there are fewer, may not. */
  ghost predicate FirstCited(sanitize: string -> string, docs: Docs, scopes: seq<string>, fp: Fingerprint,
                             hits: seq<Hit>, cap: nat, items: seq<Item>, places: seq<nat>)
  {
    && |items| == |places| <= cap
    && (forall n, m :: 0 <= n < m < |places| ==> places[n] < places[m])
    && (forall n :: 0 <= n < |places| ==>
          && places[n] < |hits| && MayCite(docs, scopes, fp, hits[places[n]])
          && ItemSays(sanitize, items[n], docs[hits[places[n]].value.document], hits[places[n]], n))
    && (forall i :: 0 <= i < |hits| && MayCite(docs, scopes, fp, hits[i]) && i !in places ==>
          |places| == cap && forall n :: 0 <= n < cap ==> places[n] < i)
  }

  /** The places of the valid hits. */
  ghost function Places(docs: Docs, scopes: seq<string>, fp: Fingerprint, hits: seq<Hit>): seq<nat> {
    if hits == [] then []
    else
      var n := |hits| - 1;
      Places(docs, scopes, fp, hits[..n]) + (if MayCite(docs, scopes, fp, hits[n]) then [n] else [])
  }

  lemma {:induction false} PlacesAre(docs: Docs, scopes: seq<string>, fp: Fingerprint, hits: seq<Hit>)
    ensures var places := Places(docs, scopes, fp, hits);
            && |places| == |ValidHits(docs, scopes, fp, hits)|
            && (forall n :: 0 <= n < |places| ==>
                  && places[n] < |hits| && MayCite(docs, scopes, fp, hits[places[n]])
                  && hits[places[n]] == ValidHits(docs, scopes, fp, hits)[n])
            && (forall n, m :: 0 <= n < m < |places| ==> places[n] < places[m])
            && (forall i :: 0 <= i < |hits| && MayCite(docs, scopes, fp, hits[i]) ==> i in places)
  {
    if hits != [] {
      PlacesAre(docs, scopes, fp, hits[..|hits| - 1]);
    }
  }

  /** The answer is the first `cap` hits that may be cited. */
  lemma CitesFirst(sanitize: string -> string, docs: Docs, scopes: seq<string>, fp: Fingerprint, hits: seq<Hit>,
                   cap: nat, items: seq<Item>)
    requires Cites(sanitize, docs, items, Take(ValidHits(docs, scopes, fp, hits), cap))
    ensures FirstCited(sanitize, docs, scopes, fp, hits, cap, items, Take(Places(docs, scopes, fp, hits), cap))
  {
    hide ValidHits, Places, MayCite, ItemSays, ToItem;
    var all, places := Places(docs, scopes, fp, hits), Take(Places(docs, scopes, fp, hits), cap);
    PlacesAre(docs, scopes, fp, hits);
    forall n | 0 <= n < |places|
      ensures ItemSays(sanitize, items[n], docs[hits[places[n]].value.document], hits[places[n]], n)
    {
      ItemIs(sanitize, docs, hits[places[n]], n);
    }
    forall i | 0 <= i < |hits| && MayCite(docs, scopes, fp, hits[i]) && i !in places
      ensures |places| == cap && forall n :: 0 <= n < cap ==> places[n] < i
    {
      assert forall n :: 0 <= n < |places| ==> all[n] == places[n] && places[n] in places;
      var m :| 0 <= m < |all| && all[m] == i;
    }
  }

  lemma ItemIs(sanitize: string -> string, docs: Docs, h: Hit, n: nat)
    requires h.value.document in docs
    ensures ItemSays(sanitize, ToItem(sanitize, docs, h, n + 1), docs[h.value.document], h, n)
  {
  }

  lemma {:induction false} ValidPrefix(docs: Docs, scopes: seq<string>, fp: Fingerprint, hits: seq<Hit>, i: nat)
    requires i <= |hits|
    ensures ValidHits(docs, scopes, fp, hits[..i]) <= ValidHits(docs, scopes, fp, hits)
  {
    if i < |hits| {
      var n := |hits| - 1;
      ValidPrefix(docs, scopes, fp, hits[..n], i);
      assert hits[..n][..i] == hits[..i];
    } else {
      assert hits[..i] == hits;
    }
  }

  /** The filter keeps only valid hits, every valid hit, and their order. */
  lemma {:induction false} ValidHitsAre(docs: Docs, scopes: seq<string>, fp: Fingerprint, hits: seq<Hit>)
    ensures forall h :: h in ValidHits(docs, scopes, fp, hits) <==> h in hits && Valid(docs, scopes, fp, h)
    ensures Descending(hits) ==> Descending(ValidHits(docs, scopes, fp, hits))
  {
    if hits != [] {
      var n := |hits| - 1;
      var v := ValidHits(docs, scopes, fp, hits[..n]);
      ValidHitsAre(docs, scopes, fp, hits[..n]);
      assert hits == hits[..n] + [hits[n]];
      if Descending(hits) {
        forall i | 0 <= i < |v| ensures v[i].score >= hits[n].score {
          assert v[i] in hits[..n];
        }
      }
    }
  }

  lemma ExcerptSize(sanitize: string -> string, text: string)
    ensures Utf8.Size(Excerpt(sanitize, text)) <= 4 * CHUNK_SIZE
  {
    Utf8.SizeBounds(Excerpt(sanitize, text));
  }

  /** One more hit for the loop below. */
  lemma ValidNext(docs: Docs, scopes: seq<string>, fp: Fingerprint, ranked: seq<Hit>, i: nat)
    requires i < |ranked|
    ensures ValidHits(docs, scopes, fp, ranked[..i + 1])
         == ValidHits(docs, scopes, fp, ranked[..i])
            + (if Valid(docs, scopes, fp, ranked[i]) then [ranked[i]] else [])
    ensures ValidHits(docs, scopes, fp, ranked[..i + 1]) <= ValidHits(docs, scopes, fp, ranked)
  {
    assert ranked[..i + 1][..i] == ranked[..i];
    ValidPrefix(docs, scopes, fp, ranked, i + 1);
  }

  lemma CitesNext(sanitize: string -> string, docs: Docs, items: seq<Item>, hits: seq<Hit>, h: Hit)
    requires Cites(sanitize, docs, items, hits) && h.value.document in docs
    ensures Cites(sanitize, docs, items + [ToItem(sanitize, docs, h, |items| + 1)], hits + [h])
  {
  }

  /**
   The search loop. At most 8 excerpts of at most 400 characters of at most 4 octets
   never reach 16 KiB, so the byte limit cuts nothing off: the answer is the first
   `cap` valid hits.
   */
  method TakeValid(ranked: seq<Hit>, docs: Docs, scopes: seq<string>, fp: Fingerprint, cap: nat,
                   sanitize: string -> string)
    returns (items: seq<Item>)
    requires 1 <= cap <= MAX_RESULTS
    ensures Cites(sanitize, docs, items, Take(ValidHits(docs, scopes, fp, ranked), cap))
  {
    items := [];
    var usedBytes := 0;
    ghost var chosen: seq<Hit> := [];
    for i := 0 to |ranked|
      invariant chosen == ValidHits(docs, scopes, fp, ranked[..i])
      invariant Cites(sanitize, docs, items, chosen)
      invariant |items| < cap
      invariant usedBytes <= 4 * CHUNK_SIZE * |items|
    {
      ValidNext(docs, scopes, fp, ranked, i);
      if Valid(docs, scopes, fp, ranked[i]) {
        var item := ToItem(sanitize, docs, ranked[i], |items| + 1);
        ExcerptSize(sanitize, ranked[i].value.text);
        if usedBytes + Utf8.Size(item.excerpt) > MAX_CONTEXT_BYTES {
          break;
        }
        usedBytes := usedBytes + Utf8.Size(item.excerpt);
        CitesNext(sanitize, docs, items, chosen, ranked[i]);
        items, chosen := items + [item], chosen + [ranked[i]];
        if |items| >= cap {
          return;
        }
      }
    }
    assert ranked[..|ranked|] == ranked;
  }

  /** What the store answers: the fused candidates, at most 32 of them. */
  ghost function Candidates(b: Ballot): seq<Hit> {
    if forall k :: k in b.order ==> k in b.items then Take(Ranked(ItemsOf(b)), CANDIDATES) else []
  }

  ghost predicate CountsAll(key: Record -> string, text: seq<Record>, vector: seq<Record>, b: Ballot) {
    Counts(key, Votes(text) + Votes(vector), b) && forall k :: k in b.order ==> k in b.items
  }

  /** From the two rankings to the cited answer. */
  ghost predicate Answers(sanitize: string -> string, docs: Docs, scopes: seq<string>, fp: Fingerprint,
                          key: Record -> string, text: seq<Record>, vector: seq<Record>, cap: nat, items: seq<Item>)
  {
    exists b :: CountsAll(key, text, vector, b)
                && Cites(sanitize, docs, items, Take(ValidHits(docs, scopes, fp, Candidates(b)), cap))
  }

  /** The items are the first that may be cited of a list of found records, at most 32, by
      descending sum of 1 / (60 + rank). */
  ghost predicate CitesBest(sanitize: string -> string, docs: Docs, scopes: seq<string>, fp: Fingerprint,
                            key: Record -> string, text: seq<Record>, vector: seq<Record>, cap: nat, items: seq<Item>)
  {
    exists hits: seq<Hit>, places: seq<nat> ::
      && |hits| <= 32 && Descending(hits)
      && (forall h :: h in hits ==>
            && h.value in text + vector
            && h.score == RankSum(key, text, key(h.value)) + RankSum(key, vector, key(h.value)))
      && (forall r :: r in text + vector ==> LeavesOutWorse(key, text, vector, hits, 32, r))
      && (vector == [] && DistinctKeys(key, text) ==> KeepsOrder(hits, text, 32))
      && (text == [] && DistinctKeys(key, vector) ==> KeepsOrder(hits, vector, 32))
      && FirstCited(sanitize, docs, scopes, fp, hits, cap, items, places)
  }

  /** The index is published, under the settings of the running code. */
  ghost predicate Answerable(row: Option<Config>) {
    row.Some? && row.value.indexState == Ready && row.value.modelFp == row.value.settingsFp
  }

  /** `text` and `vector` are what the two queries find; `row` and `docs` are the rows as the
      search reads them. */
  method Search(query: string, limit: int, scopes: seq<string>, row: Option<Config>, docs: Docs,
                key: Record -> string, text: seq<Record>, vector: seq<Record>, sanitize: string -> string)
    returns (r: Result<seq<Item>, SearchError>)
    ensures query == "" || |query| > 512 ==> r == Failure(InvalidQuery)
    ensures 0 < |query| <= 512 && limit < 1 ==> r == Failure(InvalidLimit)
    ensures 0 < |query| <= 512 && limit >= 1 ==> r.Success?
    ensures r.Success? && !(scopes != [] && Answerable(row)) ==> r.value == []
    ensures r.Success? && scopes != [] && Answerable(row) ==>
              var cap := if limit < 8 then limit else 8;
              && Answers(sanitize, docs, scopes, row.value.modelFp, key, text, vector, cap, r.value)
              && CitesBest(sanitize, docs, scopes, row.value.modelFp, key, text, vector, cap, r.value)
  {
    hide Counts, Ranked, Cites, ValidHits, Valid, FirstCited, Places, RankSum, Descending,
      LeavesOutWorse;
    if query == "" || |query| > MAX_QUERY {
      return Failure(InvalidQuery);
    }
    if limit < 1 {
      return Failure(InvalidLimit);
    }
    var cap := if limit < MAX_RESULTS then limit else MAX_RESULTS;
    if scopes == [] || row == None || ReportedState(row.value) != Ready {
      return Success([]);
    }
    var hits, b := Fuse(key, text, vector, CANDIDATES);
    RankedSorted(hits);
    ItemsAreThere(key, Votes(text) + Votes(vector), b);
    var items := TakeValid(Ranked(hits), docs, scopes, row.value.modelFp, cap, sanitize);
    assert Cites(sanitize, docs, items, Take(ValidHits(docs, scopes, row.value.modelFp, Candidates(b)), cap));
    CitesFirst(sanitize, docs, scopes, row.value.modelFp, hits, cap, items);
    return Success(items);
  }

  lemma CandidatesDescend(b: Ballot)
    ensures Descending(Candidates(b))
  {
    hide Ranked;
    if forall k :: k in b.order ==> k in b.items {
      RankedProperties(ItemsOf(b), 0.0);
    }
  }

  lemma CitedInOrder(sanitize: string -> string, docs: Docs, items: seq<Item>, hits: seq<Hit>, i: nat, j: nat)
    requires Cites(sanitize, docs, items, hits) && Descending(hits) && i < j < |items|
    ensures items[i].score >= items[j].score
  {
  }

  /** Scores never increase down the answer. */
  lemma ScoresNeverIncrease(sanitize: string -> string, docs: Docs, scopes: seq<string>, fp: Fingerprint,
                            key: Record -> string, text: seq<Record>, vector: seq<Record>, cap: nat,
                            items: seq<Item>, i: nat, j: nat)
    requires Answers(sanitize, docs, scopes, fp, key, text, vector, cap, items)
    requires i < j < |items|
    ensures items[i].score >= items[j].score
  {
    hide Ranked, ValidHits, Valid, Cites, Candidates;
    var b :| CountsAll(key, text, vector, b)
             && Cites(sanitize, docs, items, Take(ValidHits(docs, scopes, fp, Candidates(b)), cap));
    CandidatesDescend(b);
    ValidHitsAre(docs, scopes, fp, Candidates(b));
    CitedInOrder(sanitize, docs, items, Take(ValidHits(docs, scopes, fp, Candidates(b)), cap), i, j);
  }

  /** Some state of the run held this record in its store. */
  ghost predicate WasStored(states: seq<World>, r: Record) {
    exists j, k :: 0 <= j < |states| && k in states[j].store && states[j].store[k] == r
  }

  /** Each item is a capped, sanitized chunk of the current content of an approved document in
      scope that carries the fingerprint, and the citations are K1, K2, ... */
  ghost predicate Sound(e: Env, docs: Docs, scopes: seq<string>, fp: Fingerprint, sanitize: string -> string,
                        items: seq<Item>)
  {
    forall n :: 0 <= n < |items| ==> SoundItem(e, docs, scopes, fp, sanitize, items[n], n)
  }

  ghost predicate SoundItem(e: Env, docs: Docs, scopes: seq<string>, fp: Fingerprint, sanitize: string -> string,
                            item: Item, n: nat)
  {
    && item.citation == n + 1 && item.document in docs
    && var d := docs[item.document];
       && d.approved && d.body.scope in scopes && d.version == item.version
       && d.indexedFp == Some(fp)
       && exists c :: 0 <= c < |ChunksOf(e, d.body)|
            && item.excerpt == Excerpt(sanitize, ChunksOf(e, d.body)[c].text)
  }

  /**
   Search soundness, with no assumption about rebuilds in flight. The documents are those
   of any moment `i` of a run. Each record that a query finds was in the store at a moment of
   its own, before or after `i`: rebuilds may act between the queries. The configuration was
   read at yet another moment, so `fp` is any fingerprint.
   */
  lemma SearchIsSound(e: Env, states: seq<World>, steps: seq<Step>, i: nat, fp: Fingerprint, scopes: seq<string>,
                      key: Record -> string, text: seq<Record>, vector: seq<Record>, cap: nat,
                      sanitize: string -> string, items: seq<Item>)
    requires IsRun(e, states, steps) && i < |states|
    requires forall r :: r in text + vector ==> WasStored(states, r)
    requires Answers(sanitize, states[i].docs, scopes, fp, key, text, vector, cap, items)
    ensures Sound(e, states[i].docs, scopes, fp, sanitize, items)
  {
    hide IsRun, Counts, Candidates, Cites, ValidHits, WasStored, Sound, ItemsOf, Ranked;
    var docs := states[i].docs;
    var b :| CountsAll(key, text, vector, b)
             && Cites(sanitize, docs, items, Take(ValidHits(docs, scopes, fp, Candidates(b)), cap));
    CandidatesFound(key, text, vector, b);
    HitsAreSound(e, states, steps, i, fp, scopes, Candidates(b), cap, sanitize, items);
  }

  lemma CandidatesFound(key: Record -> string, text: seq<Record>, vector: seq<Record>, b: Ballot)
    requires CountsAll(key, text, vector, b)
    ensures forall h :: h in Candidates(b) ==> h.value in text + vector
  {
    hide Ranked, Counts;
    CandidatesOnly(key, text, vector, b);
  }

  lemma HitsAreSound(e: Env, states: seq<World>, steps: seq<Step>, i: nat, fp: Fingerprint, scopes: seq<string>,
                     hits: seq<Hit>, cap: nat, sanitize: string -> string, items: seq<Item>)
    requires IsRun(e, states, steps) && i < |states|
    requires forall h :: h in hits ==> WasStored(states, h.value)
    requires Cites(sanitize, states[i].docs, items, Take(ValidHits(states[i].docs, scopes, fp, hits), cap))
    ensures Sound(e, states[i].docs, scopes, fp, sanitize, items)
  {
    hide IsRun, ValidHits, Valid, WasStored, ToItem, SoundItem;
    var docs := states[i].docs;
    ValidHitsAre(docs, scopes, fp, hits);
    forall n | 0 <= n < |items|
      ensures SoundItem(e, docs, scopes, fp, sanitize, items[n], n)
    {
      var h := Take(ValidHits(docs, scopes, fp, hits), cap)[n];
      assert h in ValidHits(docs, scopes, fp, hits);
      HitIsSound(e, states, steps, i, fp, scopes, h, sanitize, n);
    }
  }

  lemma HitIsSound(e: Env, states: seq<World>, steps: seq<Step>, i: nat, fp: Fingerprint, scopes: seq<string>,
                   h: Hit, sanitize: string -> string, n: nat)
    requires IsRun(e, states, steps) && i < |states| && WasStored(states, h.value)
    requires Valid(states[i].docs, scopes, fp, h)
    ensures SoundItem(e, states[i].docs, scopes, fp, sanitize, ToItem(sanitize, states[i].docs, h, n + 1), n)
  {
    hide IsRun, Excerpt;
    var j, k :| 0 <= j < |states| && k in states[j].store && states[j].store[k] == h.value;
    RecordNamesKey(e, states, steps, j, k);
    StoredRecordIsCurrent(e, states, steps, i, j, k);
  }

  lemma RecordNamesKey(e: Env, states: seq<World>, steps: seq<Step>, j: nat, k: Key)
    requires IsRun(e, states, steps) && j < |states| && k in states[j].store
    ensures states[j].store[k].document == k.doc && states[j].store[k].version == k.version
  {
    InvRun(e, states, steps, j);
    assert FromHistory(e, states[j].history, k, states[j].store[k]);
  }
}

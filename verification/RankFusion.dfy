/** Reciprocal-rank fusion of a text ranking and a vector ranking. */
module RankFusion {
  import opened KnowledgeIndex

  const CANDIDATES := 32

  datatype Hit = Hit(value: Record, score: real)

  // ---------------------------------------------------------------- stable sorting

  /** Puts a hit in front of the first one that does not score higher. */
  function Insert(h: Hit, sorted: seq<Hit>): seq<Hit> {
    if sorted == [] || h.score >= sorted[0].score then [h] + sorted
    else [sorted[0]] + Insert(h, sorted[1..])
  }

  /** The library sort by descending score, which keeps the order of equal scores. */
  function Ranked(hits: seq<Hit>): seq<Hit> {
    if hits == [] then [] else Insert(hits[0], Ranked(hits[1..]))
  }

  ghost predicate Descending(hits: seq<Hit>) {
    forall i, j :: 0 <= i < j < |hits| ==> hits[i].score >= hits[j].score
  }

  /** The hits with one given score, in order. */
  ghost function Tied(hits: seq<Hit>, score: real): seq<Hit> {
    if hits == [] then []
    else (if hits[0].score == score then [hits[0]] else []) + Tied(hits[1..], score)
  }

  lemma {:induction false} InsertMultiset(h: Hit, sorted: seq<Hit>)
    ensures multiset(Insert(h, sorted)) == multiset(sorted) + multiset{h}
  {
    if sorted != [] && h.score < sorted[0].score {
      InsertMultiset(h, sorted[1..]);
      assert sorted == [sorted[0]] + sorted[1..];
    }
  }

  lemma {:induction false} InsertDescending(h: Hit, sorted: seq<Hit>)
    requires Descending(sorted)
    ensures Descending(Insert(h, sorted))
  {
    if sorted != [] && h.score < sorted[0].score {
      var rest := Insert(h, sorted[1..]);
      InsertDescending(h, sorted[1..]);
      InsertMultiset(h, sorted[1..]);
      forall j | 0 <= j < |rest| ensures rest[j].score <= sorted[0].score {
        assert rest[j] in multiset(rest);
      }
    }
  }

  lemma {:induction false} InsertTied(h: Hit, sorted: seq<Hit>, score: real)
    requires Descending(sorted)
    ensures Tied(Insert(h, sorted), score) == (if h.score == score then [h] else []) + Tied(sorted, score)
  {
    var tail := if sorted == [] then [] else sorted[1..];
    if sorted == [] || h.score >= sorted[0].score {
      assert ([h] + sorted)[1..] == sorted;
    } else {
      InsertTied(h, tail, score);
      assert ([sorted[0]] + Insert(h, tail))[1..] == Insert(h, tail);
      if h.score == score {
        assert Tied(sorted, score) == [] + Tied(tail, score);
      } else {
        assert Tied(Insert(h, tail), score) == [] + Tied(tail, score);
      }
    }
  }

  /** The same hits, by descending score, ties in their old order. */
  lemma {:induction false} RankedProperties(hits: seq<Hit>, score: real)
    ensures Descending(Ranked(hits))
    ensures multiset(Ranked(hits)) == multiset(hits)
    ensures Tied(Ranked(hits), score) == Tied(hits, score)
  {
    if hits != [] {
      RankedProperties(hits[1..], score);
      InsertDescending(hits[0], Ranked(hits[1..]));
      InsertMultiset(hits[0], Ranked(hits[1..]));
      InsertTied(hits[0], Ranked(hits[1..]), score);
      assert hits == [hits[0]] + hits[1..];
    }
  }

  lemma {:induction false} RankedSorted(hits: seq<Hit>)
    requires Descending(hits)
    ensures Ranked(hits) == hits
  {
    if hits != [] {
      RankedSorted(hits[1..]);
      assert hits == [hits[0]] + hits[1..];
    }
  }

  // ---------------------------------------------------------------- fusion

  /** The weight of the candidate at place `i`, whose rank is `i + 1`. */
  function Weight(i: nat): real {
    1.0 / (60 + (i + 1)) as real
  }

  /** One candidate of one ranking, with its weight. */
  datatype Vote = Vote(value: Record, weight: real)

  function Votes(hits: seq<Record>): (votes: seq<Vote>)
    ensures |votes| == |hits|
    ensures forall i :: 0 <= i < |hits| ==> votes[i] == Vote(hits[i], Weight(i))
  {
    seq(|hits|, i requires 0 <= i < |hits| => Vote(hits[i], Weight(i)))
  }

  /** The sum of all votes for a key. */
  ghost function Tally(key: Record -> string, votes: seq<Vote>, k: string): real {
    if votes == [] then 0.0
    else
      var n := |votes| - 1;
      Tally(key, votes[..n], k) + (if key(votes[n].value) == k then votes[n].weight else 0.0)
  }

  ghost predicate HasVote(key: Record -> string, votes: seq<Vote>, k: string) {
    exists i :: 0 <= i < |votes| && key(votes[i].value) == k
  }

  /** The fusion dictionary: its keys in insertion order, and its items. */
  datatype Ballot = Ballot(order: seq<string>, items: map<string, Hit>)

  /** One turn of the inner loop: look the key up or insert it, then add the weight. */
  function AddVote(b: Ballot, k: string, v: Vote): Ballot {
    var order := if k in b.items then b.order else b.order + [k];
    var item := if k in b.items then b.items[k] else Hit(v.value, 0.0);
    Ballot(order, b.items[k := item.(score := item.score + v.weight)])
  }

  /** The keys of the votes, each where it first occurs. */
  ghost function FirstKeys(key: Record -> string, votes: seq<Vote>): seq<string> {
    if votes == [] then []
    else
      var front, k := FirstKeys(key, votes[..|votes| - 1]), key(votes[|votes| - 1].value);
      if k in front then front else front + [k]
  }

  /** A dictionary that counts exactly these votes. */
  ghost predicate Counts(key: Record -> string, votes: seq<Vote>, b: Ballot) {
    && b.order == FirstKeys(key, votes)
    && (forall i, j :: 0 <= i < j < |b.order| ==> b.order[i] != b.order[j])
    && (forall k :: k in b.order <==> k in b.items)
    && (forall k :: k in b.items <==> HasVote(key, votes, k))
    && (forall k :: k in b.items ==>
          && key(b.items[k].value) == k
          && (exists i :: 0 <= i < |votes| && votes[i].value == b.items[k].value)
          && b.items[k].score == Tally(key, votes, k))
  }

  lemma {:induction false} NoTally(key: Record -> string, votes: seq<Vote>, k: string)
    requires !HasVote(key, votes, k)
    ensures Tally(key, votes, k) == 0.0
  {
    if votes != [] {
      var n := |votes| - 1;
      assert forall i :: 0 <= i < n ==> votes[..n][i] == votes[i];
      NoTally(key, votes[..n], k);
    }
  }

  lemma HasVoteAppend(key: Record -> string, votes: seq<Vote>, v: Vote, k: string)
    ensures HasVote(key, votes + [v], k) <==> HasVote(key, votes, k) || key(v.value) == k
  {
    var all := votes + [v];
    assert forall i :: 0 <= i < |votes| ==> all[i] == votes[i];
    assert all[|votes|] == v;
  }

  lemma AddVoteCounts(key: Record -> string, votes: seq<Vote>, b: Ballot, v: Vote)
    requires Counts(key, votes, b)
    ensures Counts(key, votes + [v], AddVote(b, key(v.value), v))
  {
    var all, t, kv := votes + [v], AddVote(b, key(v.value), v), key(v.value);
    assert all[..|votes|] == votes && all[|votes|] == v;
    forall k
      ensures k in t.items <==> HasVote(key, all, k)
      ensures k in t.items ==>
                && key(t.items[k].value) == k
                && (exists i :: 0 <= i < |all| && all[i].value == t.items[k].value)
                && t.items[k].score == Tally(key, all, k)
    {
      HasVoteAppend(key, votes, v, k);
      if k in b.items {
        var i :| 0 <= i < |votes| && votes[i].value == b.items[k].value;
        assert all[i].value == t.items[k].value;
      } else if k == kv {
        NoTally(key, votes, k);
        assert all[|votes|].value == t.items[k].value;
      }
    }
  }

  /** The inner loop: one ranking into the dictionary. */
  method CountRanking(key: Record -> string, hits: seq<Record>, b0: Ballot, ghost votes: seq<Vote>)
    returns (b: Ballot)
    requires Counts(key, votes, b0)
    ensures Counts(key, votes + Votes(hits), b)
  {
    b := b0;
    assert votes + Votes(hits)[..0] == votes;
    for i := 0 to |hits|
      invariant Counts(key, votes + Votes(hits)[..i], b)
    {
      AddVoteCounts(key, votes + Votes(hits)[..i], b, Vote(hits[i], Weight(i)));
      b := AddVote(b, key(hits[i]), Vote(hits[i], Weight(i)));
      assert (votes + Votes(hits)[..i]) + [Vote(hits[i], Weight(i))] == votes + Votes(hits)[..i + 1];
    }
    assert Votes(hits)[..|hits|] == Votes(hits);
  }

  /** Both rankings, one after the other, into one dictionary. */
  method Count(key: Record -> string, text: seq<Record>, vector: seq<Record>) returns (b: Ballot)
    ensures Counts(key, Votes(text) + Votes(vector), b)
  {
    b := CountRanking(key, text, Ballot([], map[]), []);
    assert [] + Votes(text) == Votes(text);
    b := CountRanking(key, vector, b, Votes(text));
  }

  /** The sum of 1 / (60 + rank) over the places of a ranking that hold a key. */
  ghost function RankSum(key: Record -> string, ranking: seq<Record>, k: string): real {
    if ranking == [] then 0.0
    else
      var rank := |ranking|;
      RankSum(key, ranking[..rank - 1], k)
      + (if key(ranking[rank - 1]) == k then 1.0 / (60 + rank) as real else 0.0)
  }

  lemma {:induction false} TallyIsRankSum(key: Record -> string, ranking: seq<Record>, k: string)
    ensures Tally(key, Votes(ranking), k) == RankSum(key, ranking, k)
  {
    if ranking != [] {
      var n := |ranking| - 1;
      TallyIsRankSum(key, ranking[..n], k);
      assert Votes(ranking)[..n] == Votes(ranking[..n]);
    }
  }

  function ItemsOf(b: Ballot): (hits: seq<Hit>)
    requires forall k :: k in b.order ==> k in b.items
    ensures |hits| == |b.order| && forall i :: 0 <= i < |hits| ==> hits[i] == b.items[b.order[i]]
  {
    seq(|b.order|, i requires 0 <= i < |b.order| => b.items[b.order[i]])
  }

  function Take<T>(s: seq<T>, n: nat): seq<T> {
    if n < |s| then s[..n] else s
  }

  /** The fused candidates, best first. One ranking alone keeps its order. */
  method Fuse(key: Record -> string, text: seq<Record>, vector: seq<Record>, limit: nat)
    returns (hits: seq<Hit>, b: Ballot)
    ensures Counts(key, Votes(text) + Votes(vector), b)
    ensures hits == Take(Ranked(ItemsOf(b)), limit)
    ensures Descending(hits)
    ensures forall h :: h in hits ==>
              && h.value in text + vector
              && h.score == RankSum(key, text, key(h.value)) + RankSum(key, vector, key(h.value))
    ensures forall r :: r in text + vector ==> LeavesOutWorse(key, text, vector, hits, limit, r)
    ensures vector == [] && DistinctKeys(key, text) ==> KeepsOrder(hits, text, limit)
    ensures text == [] && DistinctKeys(key, vector) ==> KeepsOrder(hits, vector, limit)
  {
    hide Counts, Ranked, KeepsOrder, DistinctKeys, RankSum, Tally, Descending, LeavesOutWorse;
    b := Count(key, text, vector);
    ItemsAreThere(key, Votes(text) + Votes(vector), b);
    hits := Ranked(ItemsOf(b));
    RankedProperties(ItemsOf(b), 0.0);
    CandidatesOnly(key, text, vector, b);
    ScoresAreRankSums(key, text, vector, b);
    if vector == [] && DistinctKeys(key, text) {
      assert Votes(text) + Votes(vector) == Votes(text);
      OneRanking(key, text, b, limit);
    }
    if text == [] && DistinctKeys(key, vector) {
      assert Votes(text) + Votes(vector) == Votes(vector);
      OneRanking(key, vector, b, limit);
    }
    forall r | r in text + vector
      ensures LeavesOutWorse(key, text, vector, Take(hits, limit), limit, r)
    {
      BestAreThere(key, text, vector, b, limit, r);
    }
    DescendingTake(hits, limit);
    hits := Take(hits, limit);
  }

  ghost predicate LeavesOutWorse(key: Record -> string, text: seq<Record>, vector: seq<Record>, hits: seq<Hit>,
                                 limit: nat, r: Record)
  {
    || (exists h :: h in hits && key(h.value) == key(r))
    || (|hits| == limit
        && forall h :: h in hits ==> h.score >= RankSum(key, text, key(r)) + RankSum(key, vector, key(r)))
  }

  lemma ItemFor(key: Record -> string, votes: seq<Vote>, b: Ballot, i: nat) returns (h: Hit)
    requires Counts(key, votes, b) && i < |votes| && forall k :: k in b.order ==> k in b.items
    ensures h in ItemsOf(b) && key(h.value) == key(votes[i].value)
  {
    hide Tally, FirstKeys;
    var k := key(votes[i].value);
    assert HasVote(key, votes, k);
    var j :| 0 <= j < |b.order| && b.order[j] == k;
    h := ItemsOf(b)[j];
  }

  lemma InFrontOrWorse(all: seq<Hit>, limit: nat, h: Hit)
    requires Descending(all) && h in all
    ensures h in Take(all, limit)
            || (|Take(all, limit)| == limit && forall g :: g in Take(all, limit) ==> g.score >= h.score)
  {
    var p :| 0 <= p < |all| && all[p] == h;
    if p < limit {
      assert h == Take(all, limit)[p];
    }
  }

  lemma BestAreThere(key: Record -> string, text: seq<Record>, vector: seq<Record>, b: Ballot, limit: nat, r: Record)
    requires Counts(key, Votes(text) + Votes(vector), b) && r in text + vector
    requires forall k :: k in b.order ==> k in b.items
    ensures LeavesOutWorse(key, text, vector, Take(Ranked(ItemsOf(b)), limit), limit, r)
  {
    hide Counts, Ranked, Tally, RankSum, FirstKeys, Descending, Take, ItemsOf;
    var i :| 0 <= i < |text + vector| && (text + vector)[i] == r;
    assert (Votes(text) + Votes(vector))[i].value == r;
    var h := ItemFor(key, Votes(text) + Votes(vector), b, i);
    RankedProperties(ItemsOf(b), 0.0);
    assert h in multiset(Ranked(ItemsOf(b)));
    ScoresAreRankSums(key, text, vector, b);
    InFrontOrWorse(Ranked(ItemsOf(b)), limit, h);
  }

  lemma DescendingTake(hits: seq<Hit>, n: nat)
    requires Descending(hits)
    ensures Descending(Take(hits, n)) && forall h :: h in Take(hits, n) ==> h in hits
  {
  }

  lemma ItemsAreThere(key: Record -> string, votes: seq<Vote>, b: Ballot)
    requires Counts(key, votes, b)
    ensures forall k :: k in b.order ==> k in b.items
  {
  }

  lemma ScoresAreRankSums(key: Record -> string, text: seq<Record>, vector: seq<Record>, b: Ballot)
    requires Counts(key, Votes(text) + Votes(vector), b)
    ensures forall h :: h in Ranked(ItemsOf(b)) ==>
              h.score == RankSum(key, text, key(h.value)) + RankSum(key, vector, key(h.value))
  {
    hide Ranked, RankSum, Tally;
    forall h | h in Ranked(ItemsOf(b))
      ensures h.score == RankSum(key, text, key(h.value)) + RankSum(key, vector, key(h.value))
    {
      var k := key(h.value);
      RankedItem(key, Votes(text) + Votes(vector), b, h);
      TallyConcat(key, Votes(text), Votes(vector), k);
      TallyIsRankSum(key, text, k);
      TallyIsRankSum(key, vector, k);
    }
  }

  lemma RankedMember(hits: seq<Hit>, h: Hit)
    requires h in Ranked(hits)
    ensures h in hits
  {
    RankedProperties(hits, 0.0);
    assert h in multiset(Ranked(hits));
  }

  /** A ranked hit is the dictionary's item for its key. */
  lemma RankedItem(key: Record -> string, votes: seq<Vote>, b: Ballot, h: Hit)
    requires Counts(key, votes, b) && h in Ranked(ItemsOf(b))
    ensures key(h.value) in b.items && b.items[key(h.value)] == h
  {
    RankedMember(ItemsOf(b), h);
    var i :| 0 <= i < |b.order| && ItemsOf(b)[i] == h;
    assert b.order[i] in b.items;
  }

  lemma CandidatesOnly(key: Record -> string, text: seq<Record>, vector: seq<Record>, b: Ballot)
    requires Counts(key, Votes(text) + Votes(vector), b)
    ensures forall h :: h in Ranked(ItemsOf(b)) ==> h.value in text + vector
  {
    var votes := Votes(text) + Votes(vector);
    forall h | h in Ranked(ItemsOf(b)) ensures h.value in text + vector {
      RankedItem(key, votes, b, h);
      var j :| 0 <= j < |votes| && votes[j].value == h.value;
      assert (text + vector)[j] == h.value;
    }
  }

  // ---------------------------------------------------------------- the fusion bound

  ghost predicate DistinctKeys(key: Record -> string, hits: seq<Record>) {
    forall i, j :: 0 <= i < j < |hits| ==> key(hits[i]) != key(hits[j])
  }

  ghost predicate Finds(key: Record -> string, hits: seq<Record>, k: string) {
    exists i :: 0 <= i < |hits| && key(hits[i]) == k
  }

  lemma {:induction false} TallyConcat(key: Record -> string, a: seq<Vote>, b: seq<Vote>, k: string)
    ensures Tally(key, a + b, k) == Tally(key, a, k) + Tally(key, b, k)
  {
    if b == [] {
      assert a + b == a;
    } else {
      var n := |b| - 1;
      TallyConcat(key, a, b[..n], k);
      assert (a + b)[..|a + b| - 1] == a + b[..n];
    }
  }

  /** A key that occurs once, at place `i`, gets the weight of that place. */
  lemma {:induction false} SingleVote(key: Record -> string, hits: seq<Record>, i: nat)
    requires DistinctKeys(key, hits) && i < |hits|
    ensures Tally(key, Votes(hits), key(hits[i])) == Weight(i)
  {
    var n := |hits| - 1;
    assert Votes(hits)[..n] == Votes(hits[..n]);
    if i < n {
      SingleVote(key, hits[..n], i);
    } else {
      NoTally(key, Votes(hits[..n]), key(hits[n]));
    }
  }

  lemma SingleBounds(key: Record -> string, hits: seq<Record>, k: string)
    requires DistinctKeys(key, hits) && |hits| <= CANDIDATES
    ensures Finds(key, hits, k) ==> 1.0 / 92.0 <= Tally(key, Votes(hits), k) <= 1.0 / 61.0
    ensures !Finds(key, hits, k) ==> Tally(key, Votes(hits), k) == 0.0
  {
    if Finds(key, hits, k) {
      var i :| 0 <= i < |hits| && key(hits[i]) == k;
      SingleVote(key, hits, i);
      Reciprocal(61 + i);
    } else {
      NoTally(key, Votes(hits), k);
    }
  }

  lemma Reciprocal(d: int)
    requires 61 <= d <= 92
    ensures 1.0 / 92.0 <= 1.0 / d as real <= 1.0 / 61.0
  {
    var x := 1.0 / d as real;
    assert x * d as real == 1.0;
  }

  /** The fusion bound: when no key repeats within one ranking, whatever both rankings
      found outranks whatever only one of them found, at any ranks. */
  lemma BothOutrankOne(key: Record -> string, text: seq<Record>, vector: seq<Record>, b: Ballot,
                       both: string, one: string)
    requires DistinctKeys(key, text) && DistinctKeys(key, vector)
    requires |text| <= CANDIDATES && |vector| <= CANDIDATES
    requires Counts(key, Votes(text) + Votes(vector), b)
    requires both in b.items && one in b.items
    requires Finds(key, text, both) && Finds(key, vector, both)
    requires Finds(key, text, one) <==> !Finds(key, vector, one)
    ensures b.items[both].score > b.items[one].score
  {
    TallyConcat(key, Votes(text), Votes(vector), both);
    TallyConcat(key, Votes(text), Votes(vector), one);
    SingleBounds(key, text, both);
    SingleBounds(key, vector, both);
    SingleBounds(key, text, one);
    SingleBounds(key, vector, one);
  }

  /** In the ranking itself: the candidate found twice comes first. */
  lemma BothRankedFirst(key: Record -> string, text: seq<Record>, vector: seq<Record>, b: Ballot, p: nat, q: nat)
    requires DistinctKeys(key, text) && DistinctKeys(key, vector)
    requires |text| <= CANDIDATES && |vector| <= CANDIDATES
    requires Counts(key, Votes(text) + Votes(vector), b)
    requires p < |Ranked(ItemsOf(b))| && q < |Ranked(ItemsOf(b))|
    requires var k := key(Ranked(ItemsOf(b))[p].value); Finds(key, text, k) && Finds(key, vector, k)
    requires var k := key(Ranked(ItemsOf(b))[q].value); Finds(key, text, k) <==> !Finds(key, vector, k)
    ensures p < q
  {
    hide Ranked, Tally, Counts, Finds, DistinctKeys, ItemsOf;
    ItemsAreThere(key, Votes(text) + Votes(vector), b);
    var hits := Ranked(ItemsOf(b));
    RankedProperties(ItemsOf(b), 0.0);
    RankedItem(key, Votes(text) + Votes(vector), b, hits[p]);
    RankedItem(key, Votes(text) + Votes(vector), b, hits[q]);
    BothOutrankOne(key, text, vector, b, key(hits[p].value), key(hits[q].value));
  }

  // ---------------------------------------------------------------- one ranking alone

  ghost predicate KeepsOrder(hits: seq<Hit>, ranking: seq<Record>, limit: nat) {
    && |hits| == (if |ranking| < limit then |ranking| else limit)
    && forall p :: 0 <= p < |hits| ==> hits[p].value == ranking[p]
  }

  lemma Scaled(x: real, y: real, c: real)
    requires x <= y && c > 0.0
    ensures x * c <= y * c && (x < y ==> x * c < y * c)
  {
  }

  lemma LargerDivisor(a: real, b: real)
    requires 0.0 < a < b
    ensures 1.0 / a > 1.0 / b
  {
    var x, y := 1.0 / a, 1.0 / b;
    assert x * a == 1.0 && y * b == 1.0;
    Scaled(a, b, y);
    if x <= y {
      Scaled(x, y, a);
    }
  }

  lemma EarlierWeighsMore(i: nat, j: nat)
    requires i < j
    ensures Weight(i) > Weight(j)
  {
    LargerDivisor((60 + (i + 1)) as real, (60 + (j + 1)) as real);
  }

  /** Found at an earlier place of one ranking outranks found at a later one, when the other
      ranking found neither. */
  lemma EarlierOutranksLater(key: Record -> string, text: seq<Record>, vector: seq<Record>, b: Ballot,
                             ranking: seq<Record>, other: seq<Record>, i: nat, j: nat)
    requires Counts(key, Votes(text) + Votes(vector), b)
    requires (ranking == text && other == vector) || (ranking == vector && other == text)
    requires DistinctKeys(key, ranking) && i < j < |ranking|
    requires !Finds(key, other, key(ranking[i])) && !Finds(key, other, key(ranking[j]))
    ensures key(ranking[i]) in b.items && key(ranking[j]) in b.items
    ensures b.items[key(ranking[i])].score == 1.0 / (61 + i) as real
    ensures b.items[key(ranking[i])].score > b.items[key(ranking[j])].score
  {
    FoundOnce(key, text, vector, b, ranking, other, i);
    FoundOnce(key, text, vector, b, ranking, other, j);
    EarlierWeighsMore(i, j);
  }

  lemma FoundOnce(key: Record -> string, text: seq<Record>, vector: seq<Record>, b: Ballot,
                  ranking: seq<Record>, other: seq<Record>, i: nat)
    requires Counts(key, Votes(text) + Votes(vector), b)
    requires (ranking == text && other == vector) || (ranking == vector && other == text)
    requires DistinctKeys(key, ranking) && i < |ranking| && !Finds(key, other, key(ranking[i]))
    ensures key(ranking[i]) in b.items && b.items[key(ranking[i])].score == Weight(i)
  {
    hide Tally;
    var k, votes := key(ranking[i]), Votes(text) + Votes(vector);
    TallyConcat(key, Votes(text), Votes(vector), k);
    SingleVote(key, ranking, i);
    assert !HasVote(key, Votes(other), k);
    NoTally(key, Votes(other), k);
    var at := if ranking == text then i else |text| + i;
    assert key(votes[at].value) == k;
  }

  lemma {:induction false} FirstKeysDistinct(key: Record -> string, ranking: seq<Record>)
    requires DistinctKeys(key, ranking)
    ensures FirstKeys(key, Votes(ranking)) == seq(|ranking|, i requires 0 <= i < |ranking| => key(ranking[i]))
  {
    if ranking != [] {
      var n := |ranking| - 1;
      FirstKeysDistinct(key, ranking[..n]);
      assert Votes(ranking)[..n] == Votes(ranking[..n]);
    }
  }

  /** The item of a place in one ranking alone. */
  lemma ItemAt(key: Record -> string, ranking: seq<Record>, b: Ballot, i: nat)
    requires DistinctKeys(key, ranking) && Counts(key, Votes(ranking), b) && i < |ranking|
    ensures key(ranking[i]) in b.items && b.items[key(ranking[i])] == Hit(ranking[i], Weight(i))
  {
    hide Tally;
    var k := key(ranking[i]);
    assert key(Votes(ranking)[i].value) == k;
    SingleVote(key, ranking, i);
    var j :| 0 <= j < |ranking| && Votes(ranking)[j].value == b.items[k].value;
    assert key(ranking[j]) == k;
  }

  lemma WeightsDescend(hits: seq<Hit>)
    requires forall i :: 0 <= i < |hits| ==> hits[i].score == Weight(i)
    ensures Ranked(hits) == hits
  {
    hide Ranked, Weight;
    forall i, j | 0 <= i < j < |hits|
      ensures hits[i].score >= hits[j].score
    {
      EarlierWeighsMore(i, j);
    }
    RankedSorted(hits);
  }

  /** The fusion of one ranking is that ranking. */
  lemma OneRanking(key: Record -> string, ranking: seq<Record>, b: Ballot, limit: nat)
    requires DistinctKeys(key, ranking) && Counts(key, Votes(ranking), b)
    ensures forall k :: k in b.order ==> k in b.items
    ensures KeepsOrder(Take(Ranked(ItemsOf(b)), limit), ranking, limit)
  {
    hide Ranked, Tally, Weight, DistinctKeys;
    var items := ItemsOf(b);
    FirstKeysDistinct(key, ranking);
    forall i | 0 <= i < |ranking|
      ensures items[i] == Hit(ranking[i], Weight(i))
    {
      ItemAt(key, ranking, b, i);
    }
    WeightsDescend(items);
  }
}

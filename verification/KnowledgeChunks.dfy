/** Facts about the chunk list of a snapshot and about loading it into the store. */
module KnowledgeChunks {
  import opened KnowledgeIndex

  /** The key of some chunk of a document that `docs` holds at its current version. */
  ghost predicate IsCurrentKey(e: Env, docs: Docs, k: Key) {
    && k.doc in docs && docs[k.doc].approved
    && k.version == docs[k.doc].version
    && k.position < |ChunksOf(e, docs[k.doc].body)|
  }

  ghost function CurrentRecord(e: Env, docs: Docs, k: Key): Record
    requires IsCurrentKey(e, docs, k)
  {
    RecordOf(k.doc, k.version, docs[k.doc].body, ChunksOf(e, docs[k.doc].body)[k.position])
  }

  /** The sum of the chunk_count column over a listing of documents. */
  ghost function ChunkTotal(docs: Docs, order: seq<DocId>): nat
    requires Ordered(docs, order)
  {
    if order == [] then 0
    else ChunkTotal(docs, order[..|order| - 1]) + docs[order[|order| - 1]].chunkCount
  }

  lemma LastIsGreatest(order: seq<DocId>, id: DocId)
    requires Ascending(order) && id in order
    ensures id <= order[|order| - 1]
    ensures id in order[..|order| - 1] <==> id != order[|order| - 1]
  {
    var i :| 0 <= i < |order| && order[i] == id;
    if i < |order| - 1 { assert order[..|order| - 1][i] == id; }
  }

  /** The rows of a table come in one id order only. */
  lemma {:induction false} ListingUnique(a: seq<DocId>, b: seq<DocId>)
    requires Ascending(a) && Ascending(b)
    requires forall id :: id in a <==> id in b
    ensures a == b
  {
    assert a != [] ==> a[0] in b;
    assert b != [] ==> b[0] in a;
    if a != [] {
      var x, y := a[|a| - 1], b[|b| - 1];
      LastIsGreatest(a, y);
      LastIsGreatest(b, x);
      var a', b' := a[..|a| - 1], b[..|b| - 1];
      forall id ensures id in a' <==> id in b' {
        if id in a { LastIsGreatest(a, id); LastIsGreatest(b, id); }
      }
      ListingUnique(a', b');
      assert a == a' + [x] && b == b' + [y];
    }
  }

  /** Where each position of the chunk list comes from. */
  lemma {:induction false} PreparedAt(e: Env, docs: Docs, order: seq<DocId>, i: nat)
    requires Ordered(docs, order) && i < |Prepared(e, docs, order)|
    ensures var en := Prepared(e, docs, order)[i];
            && en.key.doc in order
            && en in DocEntries(e, en.key.doc, docs[en.key.doc])
  {
    var last, front := order[|order| - 1], order[..|order| - 1];
    var p := Prepared(e, docs, front);
    if i < |p| {
      PreparedAt(e, docs, front, i);
    } else {
      assert Prepared(e, docs, order)[i] == DocEntries(e, last, docs[last])[i - |p|];
    }
  }

  /** Every chunk of a listed document has a position in the chunk list. */
  lemma {:induction false} PreparedHas(e: Env, docs: Docs, order: seq<DocId>, id: DocId, c: nat)
    returns (i: nat)
    requires Ordered(docs, order) && id in order && c < |ChunksOf(e, docs[id].body)|
    ensures i < |Prepared(e, docs, order)|
    ensures Prepared(e, docs, order)[i] == DocEntries(e, id, docs[id])[c]
  {
    var last, front := order[|order| - 1], order[..|order| - 1];
    if id == last {
      i := |Prepared(e, docs, front)| + c;
    } else {
      assert id in front;
      i := PreparedHas(e, docs, front, id, c);
    }
  }

  /** Record ids never repeat within one rebuild. */
  lemma {:induction false} PreparedDistinct(e: Env, docs: Docs, order: seq<DocId>, i: nat, j: nat)
    requires Ordered(docs, order) && Ascending(order)
    requires i < j < |Prepared(e, docs, order)|
    ensures Prepared(e, docs, order)[i].key != Prepared(e, docs, order)[j].key
  {
    var last, front := order[|order| - 1], order[..|order| - 1];
    var p, d := Prepared(e, docs, front), DocEntries(e, last, docs[last]);
    assert Prepared(e, docs, order) == p + d;
    if j < |p| {
      PreparedDistinct(e, docs, front, i, j);
    } else if i < |p| {
      PreparedAt(e, docs, front, i);
      assert p[i].key.doc in front && d[j - |p|].key.doc == last;
      assert last !in front;
    } else {
      assert d[i - |p|].key.position != d[j - |p|].key.position;
    }
  }

  /** After loading, a key holds exactly what the list says, the rest is untouched. */
  lemma {:induction false} LoadKeys(store: Store, es: seq<Entry>, k: Key)
    ensures k in Load(store, es) <==> k in store || exists i :: 0 <= i < |es| && es[i].key == k
    ensures k in Load(store, es) && !(exists i :: 0 <= i < |es| && es[i].key == k)
            ==> k in store && Load(store, es)[k] == store[k]
    ensures k in Load(store, es) && (exists i :: 0 <= i < |es| && es[i].key == k)
            ==> exists i :: 0 <= i < |es| && es[i] == Entry(k, Load(store, es)[k])
  {
    if es != [] {
      var n := |es| - 1;
      LoadKeys(store, es[..n], k);
      assert forall i :: 0 <= i < n ==> es[..n][i] == es[i];
      if es[n].key == k {
        assert es[n] == Entry(k, Load(store, es)[k]);
      }
    }
  }

  lemma {:induction false} LoadSplit(store: Store, a: seq<Entry>, b: seq<Entry>)
    ensures Load(store, a + b) == Load(Load(store, a), b)
  {
    if b == [] {
      assert a + b == a;
    } else {
      var n := |b| - 1;
      LoadSplit(store, a, b[..n]);
      assert (a + b)[..|a + b| - 1] == a + b[..n];
    }
  }

  /** Loading the whole list into an emptied store makes the store the exact index. */
  lemma LoadedIsComplete(e: Env, docs: Docs, order: seq<DocId>)
    requires IsListing(order, docs)
    ensures Ordered(docs, order)
    ensures var store := Load(map[], Prepared(e, docs, order));
            && (forall k :: k in store <==> IsCurrentKey(e, docs, k))
            && (forall k :: k in store ==> store[k] == CurrentRecord(e, docs, k))
            && |store| == |Prepared(e, docs, order)|
  {
    var es := Prepared(e, docs, order);
    var store := Load(map[], es);
    forall k
      ensures k in store <==> IsCurrentKey(e, docs, k)
      ensures k in store ==> store[k] == CurrentRecord(e, docs, k)
    {
      LoadKeys(map[], es, k);
      if k in store {
        var i :| 0 <= i < |es| && es[i] == Entry(k, store[k]);
        PreparedAt(e, docs, order, i);
      }
      if IsCurrentKey(e, docs, k) {
        var i := PreparedHas(e, docs, order, k.doc, k.position);
        assert es[i].key == k;
      }
    }
    forall i, j | 0 <= i < j < |es| ensures es[i].key != es[j].key {
      PreparedDistinct(e, docs, order, i, j);
    }
    LoadSize(es);
  }

  /** Distinct ids: no record of the list overwrites another one. */
  lemma {:induction false} LoadSize(es: seq<Entry>)
    requires forall i, j :: 0 <= i < j < |es| ==> es[i].key != es[j].key
    ensures |Load(map[], es)| == |es|
  {
    if es != [] {
      var n := |es| - 1;
      LoadSize(es[..n]);
      LoadKeys(map[], es[..n], es[n].key);
      assert es[n].key !in Load(map[], es[..n]);
    }
  }

  /** The chunk list depends only on ids, versions and bodies of the listed rows. */
  lemma {:induction false} PreparedSame(e: Env, a: Docs, b: Docs, order: seq<DocId>)
    requires Ordered(a, order) && Ordered(b, order)
    requires forall id :: id in order ==> a[id].version == b[id].version && a[id].body == b[id].body
    ensures Prepared(e, a, order) == Prepared(e, b, order)
  {
    if order != [] {
      PreparedSame(e, a, b, order[..|order| - 1]);
    }
  }

  /** The published chunk_count columns add up to the length of the chunk list. */
  lemma {:induction false} PublishedTotal(e: Env, docs: Docs, snap: Docs, fp: Fingerprint, order: seq<DocId>)
    requires Ordered(docs, order) && Ordered(snap, order)
    requires forall id :: id in order ==> docs[id].approved
    ensures Ordered(PublishDocs(e, docs, snap, fp), order)
    ensures ChunkTotal(PublishDocs(e, docs, snap, fp), order) == |Prepared(e, snap, order)|
  {
    if order != [] {
      PublishedTotal(e, docs, snap, fp, order[..|order| - 1]);
    }
  }
}

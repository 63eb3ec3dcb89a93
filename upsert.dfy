/** The effect of a run of `update_one({key: k}, {'$set': doc}, upsert=True)`
    calls on one collection, seen as a map from natural key to document.
    Every document the pipeline writes carries the full set of fields of its
    shape, so `$set` on an existing document of that shape overwrites every
    field: a single upsert is the map update `m[key(doc) := doc]`. */
module Upsert {

  /** The collection after upserting `docs` in order into `m`. */
  function UpsertAll<K, V>(m: map<K, V>, docs: seq<V>, key: V -> K): map<K, V>
    decreases |docs|
  {
    if |docs| == 0 then m
    else UpsertAll(m, docs[..|docs| - 1], key)[key(docs[|docs| - 1]) := docs[|docs| - 1]]
  }

  /** The natural keys of a batch of documents. */
  function KeysOf<K, V>(docs: seq<V>, key: V -> K): set<K> {
    set i | 0 <= i < |docs| :: key(docs[i])
  }

  /** Afterwards the collection holds the old keys and the batch's keys, and no other. */
  lemma {:induction false} UpsertKeys<K, V>(m: map<K, V>, docs: seq<V>, key: V -> K)
    ensures UpsertAll(m, docs, key).Keys == m.Keys + KeysOf(docs, key)
    decreases |docs|
  {
    if |docs| > 0 {
      var init := docs[..|docs| - 1];
      UpsertKeys(m, init, key);
      assert KeysOf(docs, key) == KeysOf(init, key) + {key(docs[|docs| - 1])} by {
        forall k | k in KeysOf(docs, key) ensures k in KeysOf(init, key) + {key(docs[|docs| - 1])} {
          var i :| 0 <= i < |docs| && key(docs[i]) == k;
          if i < |docs| - 1 { assert init[i] == docs[i]; }
        }
        forall k | k in KeysOf(init, key) ensures k in KeysOf(docs, key) {
          var i :| 0 <= i < |init| && key(init[i]) == k;
          assert docs[i] == init[i];
        }
      }
    }
  }

  /** Last write wins: a document that no later document of the batch shares
      its key with is the one stored under that key. */
  lemma {:induction false} UpsertLastWins<K, V>(m: map<K, V>, docs: seq<V>, key: V -> K, i: nat)
    requires i < |docs|
    requires forall j :: i < j < |docs| ==> key(docs[j]) != key(docs[i])
    ensures key(docs[i]) in UpsertAll(m, docs, key)
    ensures UpsertAll(m, docs, key)[key(docs[i])] == docs[i]
    decreases |docs|
  {
    if i < |docs| - 1 {
      var init := docs[..|docs| - 1];
      assert init[i] == docs[i];
      assert forall j :: i < j < |init| ==> init[j] == docs[j];
      UpsertLastWins(m, init, key, i);
    }
  }

  /** Documents under keys that the batch does not touch are unchanged. */
  lemma {:induction false} UpsertKeepsOthers<K, V>(m: map<K, V>, docs: seq<V>, key: V -> K, k: K)
    requires k in m && k !in KeysOf(docs, key)
    ensures k in UpsertAll(m, docs, key) && UpsertAll(m, docs, key)[k] == m[k]
    decreases |docs|
  {
    if |docs| > 0 {
      var init := docs[..|docs| - 1];
      assert key(docs[|docs| - 1]) in KeysOf(docs, key);
      assert KeysOf(init, key) <= KeysOf(docs, key) by {
        forall k' | k' in KeysOf(init, key) ensures k' in KeysOf(docs, key) {
          var j :| 0 <= j < |init| && key(init[j]) == k';
          assert docs[j] == init[j];
        }
      }
      UpsertKeepsOthers(m, init, key, k);
    }
  }

  /** Under the batch's own keys the result does not depend on what was stored before. */
  lemma {:induction false} UpsertOverrides<K, V>(m1: map<K, V>, m2: map<K, V>, docs: seq<V>, key: V -> K, k: K)
    requires k in KeysOf(docs, key)
    ensures k in UpsertAll(m1, docs, key) && k in UpsertAll(m2, docs, key)
    ensures UpsertAll(m1, docs, key)[k] == UpsertAll(m2, docs, key)[k]
    decreases |docs|
  {
    var init := docs[..|docs| - 1];
    if key(docs[|docs| - 1]) != k {
      var i :| 0 <= i < |docs| && key(docs[i]) == k;
      assert init[i] == docs[i];
      UpsertOverrides(m1, m2, init, key, k);
    }
  }

  /** Upserting two batches one after the other is upserting their concatenation. */
  lemma {:induction false} UpsertAppend<K, V>(m: map<K, V>, a: seq<V>, b: seq<V>, key: V -> K)
    ensures UpsertAll(m, a + b, key) == UpsertAll(UpsertAll(m, a, key), b, key)
    decreases |b|
  {
    if |b| == 0 {
      assert a + b == a;
    } else {
      assert (a + b)[..|a + b| - 1] == a + b[..|b| - 1];
      UpsertAppend(m, a, b[..|b| - 1], key);
    }
  }

  /** Re-running the same batch changes nothing: repeated collection runs never
      duplicate and, on unchanged input, leave the collection as it was. */
  lemma UpsertIdempotent<K, V>(m: map<K, V>, docs: seq<V>, key: V -> K)
    ensures UpsertAll(UpsertAll(m, docs, key), docs, key) == UpsertAll(m, docs, key)
  {
    var once := UpsertAll(m, docs, key);
    var twice := UpsertAll(once, docs, key);
    UpsertKeys(m, docs, key);
    UpsertKeys(once, docs, key);
    forall k | k in twice.Keys ensures twice[k] == once[k] {
      if k in KeysOf(docs, key) {
        UpsertOverrides(once, m, docs, key, k);
      } else {
        UpsertKeepsOthers(once, docs, key, k);
      }
    }
  }
}

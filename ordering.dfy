/**
 * The `Meta.ordering` of the models, as the order a list endpoint returns
 * rows in: every model sorts on one field, descending (`-fecha_creacion`,
 * and `-fecha_inicio` for Proyecto). Rows with equal keys come in an order
 * the database chooses; this model happens to keep ascending id among them,
 * and promises only the descending keys.
 */
module Ordering {

  /** Strictly ascending: the order of keys in a table scan by id. */
  predicate Ascending(ids: seq<nat>)
  {
    forall i, j :: 0 <= i < j < |ids| ==> ids[i] < ids[j]
  }

  /** No id twice. */
  predicate Distinct(ids: seq<nat>)
  {
    forall i, j :: 0 <= i < j < |ids| ==> ids[i] != ids[j]
  }

  /** Sorted on `key`, largest first. */
  predicate Descending(ids: seq<nat>, key: nat -> int)
  {
    forall i, j :: 0 <= i < j < |ids| ==> key(ids[i]) >= key(ids[j])
  }

  /** The ids of `rows` below `n`, in ascending order. */
  function KeysBelow<T>(rows: map<nat, T>, n: nat): (r: seq<nat>)
    ensures forall k :: k in r <==> k in rows && k < n
    ensures Ascending(r)
  {
    if n == 0 then []
    else if n - 1 in rows then
      var prev := KeysBelow(rows, n - 1);
      assert forall i :: 0 <= i < |prev| ==> prev[i] < n - 1 by {
        forall i | 0 <= i < |prev| ensures prev[i] < n - 1 {
          assert prev[i] in prev;
        }
      }
      prev + [n - 1]
    else KeysBelow(rows, n - 1)
  }

  lemma AscendingIsDistinct(ids: seq<nat>)
    requires Ascending(ids)
    ensures Distinct(ids)
  {
  }

  /** `k` placed before the first id whose key it reaches. */
  function InsertByKey(k: nat, ids: seq<nat>, key: nat -> int): (r: seq<nat>)
    ensures multiset(r) == multiset(ids) + multiset{k}
  {
    if ids == [] || key(k) >= key(ids[0]) then [k] + ids
    else
      assert ids == [ids[0]] + ids[1..];
      [ids[0]] + InsertByKey(k, ids[1..], key)
  }

  lemma {:induction false} InsertByKeyDescending(k: nat, ids: seq<nat>, key: nat -> int)
    requires Descending(ids, key)
    ensures Descending(InsertByKey(k, ids, key), key)
  {
    if ids != [] && key(k) < key(ids[0]) {
      var rest := InsertByKey(k, ids[1..], key);
      InsertByKeyDescending(k, ids[1..], key);
      forall j | 0 <= j < |rest|
        ensures key(ids[0]) >= key(rest[j])
      {
        assert rest[j] in multiset(rest);
        if rest[j] != k {
          assert rest[j] in multiset(ids[1..]);
          var i :| 0 <= i < |ids[1..]| && ids[1..][i] == rest[j];
          assert ids[i + 1] == rest[j];
        }
      }
    }
  }

  lemma {:induction false} InsertByKeyDistinct(k: nat, ids: seq<nat>, key: nat -> int)
    requires Distinct(ids) && k !in ids
    ensures Distinct(InsertByKey(k, ids, key))
  {
    if ids != [] && key(k) < key(ids[0]) {
      var rest := InsertByKey(k, ids[1..], key);
      InsertByKeyDistinct(k, ids[1..], key);
      forall j | 0 <= j < |rest|
        ensures rest[j] != ids[0]
      {
        assert rest[j] in multiset(rest);
        if rest[j] != k {
          assert rest[j] in multiset(ids[1..]);
        }
      }
    }
  }

  /** Insertion sort on `key`, largest first. */
  function SortByKey(ids: seq<nat>, key: nat -> int): (r: seq<nat>)
    ensures multiset(r) == multiset(ids)
  {
    if ids == [] then []
    else
      assert ids == [ids[0]] + ids[1..];
      InsertByKey(ids[0], SortByKey(ids[1..], key), key)
  }

  /** The sort puts the ids in descending order of key, and keeps distinct ids distinct. */
  lemma {:induction false} SortByKeySorted(ids: seq<nat>, key: nat -> int)
    ensures Descending(SortByKey(ids, key), key)
    ensures Distinct(ids) ==> Distinct(SortByKey(ids, key))
  {
    if ids != [] {
      var rest := SortByKey(ids[1..], key);
      SortByKeySorted(ids[1..], key);
      InsertByKeyDescending(ids[0], rest, key);
      if Distinct(ids) {
        assert ids[0] !in ids[1..];
        assert ids[0] !in multiset(rest);
        InsertByKeyDistinct(ids[0], rest, key);
      }
    }
  }
}

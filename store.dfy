/** One collection of the document store, as a sequence of documents in
    insertion order, and the operations the models issue against it:
    equality filters, `limit`, and `findOne`, `updateOne` with `$set`,
    `deleteOne` and the upserting `updateOne`, each of which acts on the
    first document that matches. */
module Store {
  import opened Records
  import opened Sorting

  /** The equality query `{ field: v }`; a missing field matches null. */
  predicate Matches(r: Record, field: string, v: Value) {
    Field(r, field) == v
  }

  /** `find({ field: v })`: the matching documents, each as often as in
      `docs`. */
  function Where(docs: seq<Record>, field: string, v: Value): (r: seq<Record>)
    ensures forall i :: 0 <= i < |r| ==> Matches(r[i], field, v)
    ensures forall y :: multiset(r)[y] == if Matches(y, field, v) then multiset(docs)[y] else 0
  {
    if |docs| == 0 then []
    else
      assert docs == [docs[0]] + docs[1..];
      (if Matches(docs[0], field, v) then [docs[0]] else []) + Where(docs[1..], field, v)
  }

  /** Filtering a sorted listing leaves it sorted. */
  lemma {:induction false} WhereKeepsSorted(docs: seq<Record>, field: string, v: Value, key: string, ascending: bool)
    requires SortedBy(docs, key, ascending)
    ensures SortedBy(Where(docs, field, v), key, ascending)
  {
    if |docs| > 0 {
      var rest := Where(docs[1..], field, v);
      assert SortedBy(docs[1..], key, ascending);
      WhereKeepsSorted(docs[1..], field, v, key, ascending);
      if Matches(docs[0], field, v) {
        HeadPrecedesRest(docs, key, ascending);
        forall y | y in rest ensures InOrder(docs[0], y, key, ascending) {
          assert y in multiset(rest);
          assert y in multiset(docs[1..]);
        }
        PrependSorted(docs[0], rest, key, ascending);
      }
    }
  }

  /** How many documents match depends only on which documents there are. */
  lemma WhereCountPermutation(a: seq<Record>, b: seq<Record>, field: string, v: Value)
    requires multiset(a) == multiset(b)
    ensures |Where(a, field, v)| == |Where(b, field, v)|
  {
    assert multiset(Where(a, field, v)) == multiset(Where(b, field, v));
  }

  /** `limit(n)`: the first `n` documents of a listing; 0 means no limit. */
  function Limit(s: seq<Record>, n: nat): (r: seq<Record>)
    ensures n == 0 ==> r == s
    ensures n > 0 ==> |r| == if |s| < n then |s| else n
    ensures forall i :: 0 <= i < |r| ==> r[i] == s[i]
  {
    if n == 0 || |s| <= n then s else s[..n]
  }

  /** Applied to a sorted listing, `limit` keeps the documents that come
      first: whatever it leaves out may follow every document it keeps. */
  lemma LimitKeepsFirst(s: seq<Record>, n: nat, key: string, ascending: bool)
    requires SortedBy(s, key, ascending)
    ensures SortedBy(Limit(s, n), key, ascending)
    ensures multiset(Limit(s, n)) <= multiset(s)
    ensures forall x, y :: x in Limit(s, n) && multiset(Limit(s, n))[y] < multiset(s)[y] ==> InOrder(x, y, key, ascending)
  {
    var r := Limit(s, n);
    if r != s {
      assert s == r + s[n..];
      forall x, y | x in r && multiset(r)[y] < multiset(s)[y] ensures InOrder(x, y, key, ascending) {
        assert y in multiset(s[n..]);
        var j :| 0 <= j < |s[n..]| && s[n..][j] == y;
        var i :| 0 <= i < |r| && r[i] == x;
        assert s[i] == x && s[n + j] == y;
      }
    }
  }

  /** Position of the first document matching `{ field: v }`, or -1. */
  function FirstMatch(docs: seq<Record>, field: string, v: Value): (i: int)
    ensures -1 <= i < |docs|
    ensures i >= 0 ==> Matches(docs[i], field, v)
    ensures i >= 0 ==> forall j :: 0 <= j < i ==> !Matches(docs[j], field, v)
    ensures i < 0 ==> forall j :: 0 <= j < |docs| ==> !Matches(docs[j], field, v)
  {
    if |docs| == 0 then -1
    else if Matches(docs[0], field, v) then 0
    else
      var k := FirstMatch(docs[1..], field, v);
      if k < 0 then -1 else k + 1
  }

  /** The first matching document is the one before which nothing matches. */
  lemma FirstMatchIs(docs: seq<Record>, field: string, v: Value, i: int)
    requires 0 <= i < |docs| && Matches(docs[i], field, v)
    requires forall j :: 0 <= j < i ==> !Matches(docs[j], field, v)
    ensures FirstMatch(docs, field, v) == i
  {
  }

  /** `findOne({ field: v })`: the first matching document in store order. */
  function FindOne(docs: seq<Record>, field: string, v: Value): (r: Option<Record>)
    ensures r.None? <==> forall j :: 0 <= j < |docs| ==> !Matches(docs[j], field, v)
    ensures r.Some? ==> r.value in docs && Matches(r.value, field, v)
    ensures r.Some? ==> exists i :: 0 <= i < |docs| && docs[i] == r.value && forall j :: 0 <= j < i ==> !Matches(docs[j], field, v)
  {
    var i := FirstMatch(docs, field, v);
    if i < 0 then None else Some(docs[i])
  }

  /** `updateOne({ field: v }, { $set: patch })`: the first matching document
      takes every field of the patch and keeps its other fields; every other
      document stays as it was; with no match nothing changes. */
  function UpdateOne(docs: seq<Record>, field: string, v: Value, patch: Record): (r: seq<Record>)
    ensures |r| == |docs|
    ensures FirstMatch(docs, field, v) < 0 ==> r == docs
    ensures var i := FirstMatch(docs, field, v);
      i >= 0 ==>
        && (forall j :: 0 <= j < |docs| && j != i ==> r[j] == docs[j])
        && r[i].Keys == docs[i].Keys + patch.Keys
        && (forall f :: f in patch ==> r[i][f] == patch[f])
        && (forall f :: f in docs[i] && f !in patch ==> r[i][f] == docs[i][f])
  {
    var i := FirstMatch(docs, field, v);
    if i < 0 then docs else docs[i := docs[i] + patch]
  }

  /** `deleteOne({ field: v })`: the first matching document is removed and
      the others keep their order; with no match nothing changes. */
  function DeleteOne(docs: seq<Record>, field: string, v: Value): (r: seq<Record>)
    ensures FirstMatch(docs, field, v) < 0 ==> r == docs
    ensures var i := FirstMatch(docs, field, v);
      i >= 0 ==>
        && |r| == |docs| - 1
        && (forall j :: 0 <= j < i ==> r[j] == docs[j])
        && (forall j :: i <= j < |r| ==> r[j] == docs[j + 1])
        && multiset(r) == multiset(docs) - multiset{docs[i]}
  {
    var i := FirstMatch(docs, field, v);
    if i < 0 then docs
    else
      assert docs == docs[..i] + [docs[i]] + docs[i + 1..];
      docs[..i] + docs[i + 1..]
  }

  /** `updateOne({ field: v }, { $set: patch }, { upsert: true })`: like
      UpdateOne when a document matches; otherwise a new document made of
      the query's field and the patch is appended. */
  function UpsertOne(docs: seq<Record>, field: string, v: Value, patch: Record): (r: seq<Record>)
    ensures FirstMatch(docs, field, v) >= 0 ==> r == UpdateOne(docs, field, v, patch)
    ensures FirstMatch(docs, field, v) < 0 ==>
      && |r| == |docs| + 1 && r[..|docs|] == docs
      && r[|docs|].Keys == patch.Keys + {field}
      && (forall f :: f in patch ==> r[|docs|][f] == patch[f])
      && (field !in patch ==> r[|docs|][field] == v)
  {
    if FirstMatch(docs, field, v) >= 0 then UpdateOne(docs, field, v, patch)
    else docs + [map[field := v] + patch]
  }

  /** No two documents agree on `field`. */
  ghost predicate KeysUnique(docs: seq<Record>, field: string) {
    forall i, j :: 0 <= i < j < |docs| ==> Field(docs[i], field) != Field(docs[j], field)
  }

  /** An upsert keyed on `field` keeps the key unique, provided the patch
      does not move the document to another key. */
  lemma UpsertKeepsKeysUnique(docs: seq<Record>, field: string, v: Value, patch: Record)
    requires KeysUnique(docs, field)
    requires field in patch ==> patch[field] == v
    ensures KeysUnique(UpsertOne(docs, field, v, patch), field)
  {
    var r := UpsertOne(docs, field, v, patch);
    var i := FirstMatch(docs, field, v);
    if i >= 0 {
      assert forall j :: 0 <= j < |r| ==> Field(r[j], field) == Field(docs[j], field);
    } else {
      assert forall j :: 0 <= j < |docs| ==> r[j] == docs[j];
    }
  }

  /** After an upsert keyed on `field`, finding by that key yields a document
      that carries every field of the patch. */
  lemma UpsertThenFind(docs: seq<Record>, field: string, v: Value, patch: Record)
    requires field in patch ==> patch[field] == v
    ensures var found := FindOne(UpsertOne(docs, field, v, patch), field, v);
      found.Some? && forall f :: f in patch ==> f in found.value && found.value[f] == patch[f]
  {
    var r := UpsertOne(docs, field, v, patch);
    var i := FirstMatch(docs, field, v);
    if i >= 0 {
      FirstMatchIs(r, field, v, i);
    } else {
      FirstMatchIs(r, field, v, |docs|);
    }
  }

  /** With the key unique, at most one document has a given key. */
  lemma {:induction false} UniqueKeyAtMostOne(docs: seq<Record>, field: string, v: Value)
    requires KeysUnique(docs, field)
    ensures |Where(docs, field, v)| <= 1
  {
    if |docs| > 0 {
      assert KeysUnique(docs[1..], field);
      UniqueKeyAtMostOne(docs[1..], field, v);
      if Matches(docs[0], field, v) {
        forall y | y in multiset(docs[1..]) ensures !Matches(y, field, v) {
          var j :| 0 <= j < |docs[1..]| && docs[1..][j] == y;
          assert docs[j + 1] == y;
        }
        assert multiset(Where(docs[1..], field, v)) == multiset{};
      }
    }
  }

  /** A key that is present stays present after an upsert on any key. */
  lemma UpsertKeepsPresent(docs: seq<Record>, field: string, v: Value, patch: Record, w: Value)
    requires field in patch ==> patch[field] == v
    requires exists j :: 0 <= j < |docs| && Matches(docs[j], field, w)
    ensures exists j :: 0 <= j < |UpsertOne(docs, field, v, patch)| && Matches(UpsertOne(docs, field, v, patch)[j], field, w)
  {
    var r := UpsertOne(docs, field, v, patch);
    var j :| 0 <= j < |docs| && Matches(docs[j], field, w);
    var i := FirstMatch(docs, field, v);
    if i >= 0 {
      assert Field(r[j], field) == Field(docs[j], field);
    } else {
      assert r[j] == docs[j];
    }
  }
}

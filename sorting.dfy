/** The `sort({ key: 1 })` and `sort({ key: -1 })` of a store query: a
    listing ordered on one field, ascending or descending. The store does the
    sorting in the source; here it is an insertion sort, specified by the
    order it establishes and by keeping every document. Ties may come out in
    any order. */
module Sorting {
  import opened Records

  /** `a` may precede `b` in a listing sorted on `key`. */
  predicate InOrder(a: Record, b: Record, key: string, ascending: bool) {
    if ascending then ValueLe(Field(a, key), Field(b, key))
    else ValueLe(Field(b, key), Field(a, key))
  }

  predicate SortedBy(s: seq<Record>, key: string, ascending: bool) {
    forall i, j :: 0 <= i < j < |s| ==> InOrder(s[i], s[j], key, ascending)
  }

  lemma InOrderTotal(a: Record, b: Record, key: string, ascending: bool)
    ensures InOrder(a, b, key, ascending) || InOrder(b, a, key, ascending)
  {
    ValueLeTotal(Field(a, key), Field(b, key));
  }

  lemma InOrderTrans(a: Record, b: Record, c: Record, key: string, ascending: bool)
    requires InOrder(a, b, key, ascending) && InOrder(b, c, key, ascending)
    ensures InOrder(a, c, key, ascending)
  {
    if ascending {
      ValueLeTrans(Field(a, key), Field(b, key), Field(c, key));
    } else {
      ValueLeTrans(Field(c, key), Field(b, key), Field(a, key));
    }
  }

  /** A document that may precede everything in a sorted listing may head it. */
  lemma PrependSorted(x: Record, s: seq<Record>, key: string, ascending: bool)
    requires SortedBy(s, key, ascending)
    requires forall y :: y in s ==> InOrder(x, y, key, ascending)
    ensures SortedBy([x] + s, key, ascending)
  {
    var r := [x] + s;
    forall i, j | 0 <= i < j < |r| ensures InOrder(r[i], r[j], key, ascending) {
      assert r[j] == s[j - 1];
      if i > 0 {
        assert r[i] == s[i - 1];
      }
    }
  }

  /** The head of a sorted listing may precede everything after it. */
  lemma HeadPrecedesRest(s: seq<Record>, key: string, ascending: bool)
    requires |s| > 0 && SortedBy(s, key, ascending)
    ensures forall y :: y in s[1..] ==> InOrder(s[0], y, key, ascending)
  {
    forall y | y in s[1..] ensures InOrder(s[0], y, key, ascending) {
      var j :| 0 <= j < |s[1..]| && s[1..][j] == y;
      assert s[j + 1] == y;
    }
  }

  /** Inserts `x` before the first document it may precede. */
  function Insert(x: Record, s: seq<Record>, key: string, ascending: bool): (r: seq<Record>)
    requires SortedBy(s, key, ascending)
    ensures SortedBy(r, key, ascending)
    ensures multiset(r) == multiset(s) + multiset{x}
  {
    if |s| == 0 then [x]
    else if InOrder(x, s[0], key, ascending) then
      assert forall y :: y in s ==> InOrder(x, y, key, ascending) by {
        forall y | y in s ensures InOrder(x, y, key, ascending) {
          var j :| 0 <= j < |s| && s[j] == y;
          if j > 0 {
            InOrderTrans(x, s[0], y, key, ascending);
          }
        }
      }
      PrependSorted(x, s, key, ascending);
      [x] + s
    else
      InOrderTotal(x, s[0], key, ascending);
      HeadPrecedesRest(s, key, ascending);
      var rest := Insert(x, s[1..], key, ascending);
      assert forall y :: y in rest ==> InOrder(s[0], y, key, ascending) by {
        forall y | y in rest ensures InOrder(s[0], y, key, ascending) {
          assert y in multiset(rest);
          if y != x {
            assert y in multiset(s[1..]);
          }
        }
      }
      PrependSorted(s[0], rest, key, ascending);
      assert s == [s[0]] + s[1..];
      [s[0]] + rest
  }

  /** The listing `find({}).sort({ key: ±1 })` returns: every document of
      `s`, each as often as in `s`, in order on `key`. */
  function SortBy(s: seq<Record>, key: string, ascending: bool): (r: seq<Record>)
    ensures SortedBy(r, key, ascending)
    ensures multiset(r) == multiset(s)
  {
    if |s| == 0 then []
    else
      assert s == [s[0]] + s[1..];
      Insert(s[0], SortBy(s[1..], key, ascending), key, ascending)
  }
}

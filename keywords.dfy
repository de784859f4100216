/**
 * `getSortedKeywords` of src/data/keywords.ts: a sorted copy of the keyword
 * list, by position and then by term. The list itself is a parameter; its
 * literal contents are data, not behaviour.
 */
module Keywords {

  datatype Keyword = Keyword(term: string, position: int)

  /**
   * `a.localeCompare(b)` reduced to its sign, with collation replaced by
   * code-point order: a lexicographic comparison of the two terms.
   */
  function TermCompare(a: string, b: string): (r: int)
    ensures -1 <= r <= 1
    ensures r == 0 <==> a == b
  {
    if a == [] && b == [] then 0
    else if a == [] then -1
    else if b == [] then 1
    else if a[0] < b[0] then -1
    else if a[0] > b[0] then 1
    else
      var r := TermCompare(a[1..], b[1..]);
      assert a == [a[0]] + a[1..] && b == [b[0]] + b[1..];
      r
  }

  lemma {:induction false} TermCompareAntisymmetric(a: string, b: string)
    ensures TermCompare(b, a) == -TermCompare(a, b)
  {
    if a != [] && b != [] && a[0] == b[0] {
      TermCompareAntisymmetric(a[1..], b[1..]);
    }
  }

  lemma {:induction false} TermCompareTransitive(a: string, b: string, c: string)
    requires TermCompare(a, b) <= 0 && TermCompare(b, c) <= 0
    ensures TermCompare(a, c) <= 0
  {
    if a != [] && b != [] && c != [] && a[0] == b[0] && b[0] == c[0] {
      TermCompareTransitive(a[1..], b[1..], c[1..]);
    }
  }

  /** The comparator handed to `sort`: position difference, then the term comparison. */
  function Compare(a: Keyword, b: Keyword): int {
    if a.position != b.position then a.position - b.position
    else TermCompare(a.term, b.term)
  }

  predicate Before(a: Keyword, b: Keyword) {
    Compare(a, b) <= 0
  }

  /**
   * The comparator is consistent, as `sort` requires: it is antisymmetric,
   * it returns 0 only for identical keywords, and it is transitive.
   */
  lemma CompareAntisymmetric(a: Keyword, b: Keyword)
    ensures Compare(b, a) == -Compare(a, b)
    ensures Compare(a, b) == 0 <==> a == b
  {
    TermCompareAntisymmetric(a.term, b.term);
  }

  lemma CompareTransitive(a: Keyword, b: Keyword, c: Keyword)
    requires Before(a, b) && Before(b, c)
    ensures Before(a, c)
  {
    if a.position == b.position == c.position {
      TermCompareTransitive(a.term, b.term, c.term);
    }
  }

  lemma CompareTotal(a: Keyword, b: Keyword)
    ensures Before(a, b) || Before(b, a)
  {
    CompareAntisymmetric(a, b);
  }

  predicate Sorted(s: seq<Keyword>) {
    forall i, j :: 0 <= i < j < |s| ==> Before(s[i], s[j])
  }

  /** Places `k` in front of the first element it comes before. */
  function Insert(k: Keyword, s: seq<Keyword>): (r: seq<Keyword>)
    requires Sorted(s)
    ensures Sorted(r)
    ensures multiset(r) == multiset(s) + multiset{k}
  {
    if s == [] then [k]
    else if Before(k, s[0]) then
      assert forall j :: 0 <= j < |s| ==> Before(k, s[j]) by {
        forall j | 0 <= j < |s| ensures Before(k, s[j]) {
          if j > 0 { CompareTransitive(k, s[0], s[j]); }
        }
      }
      [k] + s
    else
      var rest := Insert(k, s[1..]);
      CompareTotal(k, s[0]);
      assert s == [s[0]] + s[1..];
      assert forall x :: x in multiset(rest) ==> Before(s[0], x);
      assert forall j :: 0 <= j < |rest| ==> Before(s[0], rest[j]) by {
        forall j | 0 <= j < |rest| ensures Before(s[0], rest[j]) {
          assert rest[j] in multiset(rest);
        }
      }
      [s[0]] + rest
  }

  function SortKeywords(s: seq<Keyword>): (r: seq<Keyword>)
    ensures Sorted(r)
    ensures multiset(r) == multiset(s)
  {
    if s == [] then []
    else
      assert s == [s[0]] + s[1..];
      Insert(s[0], SortKeywords(s[1..]))
  }

  /** The first element of a sorted list comes before every element of it. */
  lemma HeadBeforeAll(s: seq<Keyword>, x: Keyword)
    requires Sorted(s) && x in multiset(s)
    ensures s != [] && Before(s[0], x)
  {
    var j :| 0 <= j < |s| && s[j] == x;
  }

  /**
   * There is only one sorted arrangement of a multiset of keywords, so the
   * result does not depend on the sorting algorithm the engine uses.
   */
  lemma {:induction false} SortedUnique(a: seq<Keyword>, b: seq<Keyword>)
    requires Sorted(a) && Sorted(b) && multiset(a) == multiset(b)
    ensures a == b
  {
    if a == [] {
      assert |b| == |multiset(b)| == 0;
    } else {
      assert a[0] in multiset(a);
      HeadBeforeAll(b, a[0]);
      HeadBeforeAll(a, b[0]);
      CompareAntisymmetric(a[0], b[0]);
      var ta, tb := a[1..], b[1..];
      assert a[0] == b[0];
      assert a == [a[0]] + ta && b == [b[0]] + tb;
      assert multiset(a) == multiset{a[0]} + multiset(ta);
      assert multiset(b) == multiset{b[0]} + multiset(tb);
      assert multiset(ta) == multiset(a) - multiset{a[0]};
      assert multiset(tb) == multiset(b) - multiset{b[0]};
      assert Sorted(ta) && Sorted(tb);
      SortedUnique(ta, tb);
    }
  }

  /**
   * `getSortedKeywords()`: a copy of `data` holding the same keywords,
   * ordered by ascending position and, among equal positions, by term.
   */
  function GetSortedKeywords(data: seq<Keyword>): (r: seq<Keyword>)
    ensures multiset(r) == multiset(data) && |r| == |data|
    ensures forall i, j :: 0 <= i < j < |r| ==> r[i].position <= r[j].position
    ensures forall i, j :: 0 <= i < j < |r| && r[i].position == r[j].position ==>
              TermCompare(r[i].term, r[j].term) <= 0
  {
    var r := SortKeywords(data);
    assert |r| == |multiset(r)| == |multiset(data)| == |data|;
    assert Sorted(r);
    r
  }

  /** Any ordering of `data` that satisfies the comparator is the one returned. */
  lemma SortedIsResult(data: seq<Keyword>, r: seq<Keyword>)
    requires Sorted(r) && multiset(r) == multiset(data)
    ensures r == GetSortedKeywords(data)
  {
    SortedUnique(r, SortKeywords(data));
  }

  /** Sorting the sorted list again changes nothing. */
  lemma SortIdempotent(data: seq<Keyword>)
    ensures GetSortedKeywords(GetSortedKeywords(data)) == GetSortedKeywords(data)
  {
    var once := GetSortedKeywords(data);
    SortedUnique(GetSortedKeywords(once), once);
  }
}

/**
 * The keyword administration page of src/app/admin/keywords/page.tsx: a
 * list of keywords held in page state, a text filter over it, a dialog
 * draft for new keywords, deletion by index and three counters. Saving is
 * a stub in the source and is not part of this model.
 */
module KeywordsAdmin {
  import opened Wrappers
  import opened Text
  import opened Keywords

  /** `kw.term.toLowerCase().includes(filter.toLowerCase())`. */
  predicate Matches(k: Keyword, filter: string) {
    Contains(Lower(k.term), Lower(filter))
  }

  /** Searching "ESPAÑA" finds "consultora m&a españa": the accented capital folds like the others. */
  lemma AccentedFilterMatches()
    ensures Matches(Keyword("consultora m&a españa", 1), "ESPAÑA")
  {
    LowerSpanish();
    AccentedTermFolded();
    AccentedTermContains();
  }

  lemma AccentedTermFolded()
    ensures Lower("consultora m&a españa") == "consultora m&a españa"
  {
    LowerFixes("consultora m&a españa");
  }

  lemma AccentedTermContains()
    ensures Contains("consultora m&a españa", "españa")
  {
    var prefix, word := "consultora m&a ", "españa";
    assert prefix + word == "consultora m&a españa";
    assert (prefix + word)[|prefix|..|prefix| + |word|] == word;
    ContainsAt(prefix + word, word, |prefix|);
  }

  /** `keywords.filter(...)` with the search box's filter, in list order. */
  function Filtered(s: seq<Keyword>, filter: string): (r: seq<Keyword>)
    ensures |r| <= |s|
    ensures forall k :: k in r <==> k in s && Matches(k, filter)
  {
    if s == [] then []
    else if Matches(s[0], filter) then [s[0]] + Filtered(s[1..], filter)
    else Filtered(s[1..], filter)
  }

  /** Filtering keeps list order: it distributes over concatenation. */
  lemma {:induction false} FilteredAppend(s: seq<Keyword>, t: seq<Keyword>, filter: string)
    ensures Filtered(s + t, filter) == Filtered(s, filter) + Filtered(t, filter)
  {
    if s != [] {
      assert (s + t)[0] == s[0] && (s + t)[1..] == s[1..] + t;
      FilteredAppend(s[1..], t, filter);
    } else {
      assert s + t == t;
    }
  }

  /** The empty search box shows every keyword. */
  lemma {:induction false} FilteredEmpty(s: seq<Keyword>)
    ensures Filtered(s, "") == s
  {
    if s != [] {
      assert Lower("") == "";
      FilteredEmpty(s[1..]);
    }
  }

  /** The filter is case-insensitive: lower-casing it first changes nothing. */
  lemma FilteredCaseInsensitive(s: seq<Keyword>, filter: string)
    ensures Filtered(s, Lower(filter)) == Filtered(s, filter)
  {
    LowerIdempotent(filter);
  }

  /** `keywords.filter((_, i) => i !== index)`: drops the element at `index`, if there is one. */
  function Without(s: seq<Keyword>, index: int): (r: seq<Keyword>)
    ensures 0 <= index < |s| ==>
      && |r| == |s| - 1
      && (forall i :: 0 <= i < index ==> r[i] == s[i])
      && (forall i :: index <= i < |r| ==> r[i] == s[i + 1])
    ensures !(0 <= index < |s|) ==> r == s
  {
    if s == [] then []
    else if index == 0 then s[1..]
    else [s[0]] + Without(s[1..], index - 1)
  }

  /** Deleting removes exactly one copy of the element at `index`. */
  lemma WithoutMultiset(s: seq<Keyword>, index: int)
    requires 0 <= index < |s|
    ensures multiset(Without(s, index)) == multiset(s) - multiset{s[index]}
  {
    WithoutSlices(s, index);
    SpliceMultiset(s, index);
  }

  /** The element at `index` cut out: the part before it, then the part after it. */
  lemma WithoutSlices(s: seq<Keyword>, index: int)
    requires 0 <= index < |s|
    ensures Without(s, index) == s[..index] + s[index + 1..]
  {
  }

  lemma SpliceMultiset(s: seq<Keyword>, index: int)
    requires 0 <= index < |s|
    ensures multiset(s[..index] + s[index + 1..]) == multiset(s) - multiset{s[index]}
  {
    assert s == s[..index] + [s[index]] + s[index + 1..];
  }

  /** `keywords.indexOf(k)`: the first position holding `k`, or -1. */
  function IndexOf(s: seq<Keyword>, k: Keyword): (r: int)
    ensures -1 <= r < |s|
    ensures r == -1 <==> k !in s
    ensures r >= 0 ==> s[r] == k && forall j :: 0 <= j < r ==> s[j] != k
  {
    if s == [] then -1
    else if s[0] == k then 0
    else
      var i := IndexOf(s[1..], k);
      if i == -1 then -1 else i + 1
  }

  /** The number of keywords satisfying `p`, as `keywords.filter(p).length`. */
  function CountWhere(s: seq<Keyword>, p: Keyword -> bool): (n: nat)
    ensures n <= |s|
  {
    if s == [] then 0 else (if p(s[0]) then 1 else 0) + CountWhere(s[1..], p)
  }

  lemma {:induction false} CountWhereMonotone(s: seq<Keyword>, p: Keyword -> bool, q: Keyword -> bool)
    requires forall k :: p(k) ==> q(k)
    ensures CountWhere(s, p) <= CountWhere(s, q)
  {
    if s != [] { CountWhereMonotone(s[1..], p, q); }
  }

  lemma {:induction false} CountWhereAppend(s: seq<Keyword>, k: Keyword, p: Keyword -> bool)
    ensures CountWhere(s + [k], p) == CountWhere(s, p) + (if p(k) then 1 else 0)
  {
    if s != [] {
      assert (s + [k])[1..] == s[1..] + [k];
      CountWhereAppend(s[1..], k, p);
    }
  }

  /** The two counters' conditions: `position === 1` and `position <= 5`. */
  predicate AtFirst(k: Keyword) { k.position == 1 }
  predicate InTopFive(k: Keyword) { k.position <= 5 }

  datatype KeywordStats = KeywordStats(total: nat, top1: nat, top5: nat)

  /** The three counters: every keyword at #1 is in the top 5, and both are part of the total. */
  function Stats(s: seq<Keyword>): (st: KeywordStats)
    ensures st.total == |s|
    ensures st.top1 <= st.top5 <= st.total
  {
    var top1 := CountWhere(s, AtFirst);
    var top5 := CountWhere(s, InTopFive);
    CountWhereMonotone(s, AtFirst, InTopFive);
    KeywordStats(|s|, top1, top5)
  }

  /** Appending one keyword adds one to the total and one to each counter it qualifies for. */
  lemma StatsAppend(s: seq<Keyword>, k: Keyword)
    ensures Stats(s + [k]).total == Stats(s).total + 1
    ensures Stats(s + [k]).top1 == Stats(s).top1 + (if k.position == 1 then 1 else 0)
    ensures Stats(s + [k]).top5 == Stats(s).top5 + (if k.position <= 5 then 1 else 0)
  {
    CountWhereAppend(s, k, AtFirst);
    CountWhereAppend(s, k, InTopFive);
  }

  /** `parseInt(value) || 1`: NaN and 0 both fall back to 1, so the draft position is never 0. */
  function ParsePosition(raw: string): (p: int)
    ensures p != 0
    ensures ParseInt(raw).Some? && ParseInt(raw).value != 0 ==> p == ParseInt(raw).value
    ensures ParseInt(raw).None? || ParseInt(raw) == Some(0) ==> p == 1
  {
    match ParseInt(raw)
    case Some(n) => if n == 0 then 1 else n
    case None => 1
  }

  /** A position typed as its decimal form is read back unchanged, unless it is 0. */
  lemma ParsePositionRoundTrip(n: int)
    ensures ParsePosition(IntToString(n)) == if n == 0 then 1 else n
  {
    ParseIntRoundTrip(n);
  }

  datatype Toast = ErrorToast(message: string) | SuccessToast(message: string)

  const EmptyDraft: Keyword := Keyword("", 1)

  class AdminKeywords {
    var keywords: seq<Keyword>
    var filter: string
    var dialogOpen: bool
    /** The dialog's draft, `newKeyword`. */
    var newKeyword: Keyword

    /** The page mounts with the keyword data, an empty filter and a fresh draft. */
    constructor (data: seq<Keyword>)
      ensures keywords == data && filter == "" && !dialogOpen && newKeyword == EmptyDraft
    {
      keywords := data;
      filter := "";
      dialogOpen := false;
      newKeyword := EmptyDraft;
    }

    /** The rows the table shows. */
    function FilteredKeywords(): (r: seq<Keyword>)
      reads this
      ensures forall k :: k in r <==> k in keywords && Matches(k, filter)
    {
      Filtered(keywords, filter)
    }

    /** `handleAddKeyword`: refuse an empty term; otherwise append the draft, reset it and close the dialog. */
    method AddKeyword() returns (toast: Toast)
      modifies this
      ensures filter == old(filter)
      ensures old(newKeyword).term == [] ==>
        && toast == ErrorToast("El término es requerido")
        && keywords == old(keywords) && newKeyword == old(newKeyword) && dialogOpen == old(dialogOpen)
      ensures old(newKeyword).term != [] ==>
        && toast == SuccessToast("Keyword añadida")
        && keywords == old(keywords) + [old(newKeyword)]
        && newKeyword == EmptyDraft && !dialogOpen
    {
      if newKeyword.term == [] {
        return ErrorToast("El término es requerido");
      }
      keywords := keywords + [newKeyword];
      newKeyword := EmptyDraft;
      dialogOpen := false;
      toast := SuccessToast("Keyword añadida");
    }

    /** `handleDeleteKeyword(index)`. */
    method DeleteKeyword(index: int) returns (toast: Toast)
      modifies this
      ensures keywords == Without(old(keywords), index)
      ensures filter == old(filter) && dialogOpen == old(dialogOpen) && newKeyword == old(newKeyword)
      ensures toast == SuccessToast("Keyword eliminada")
    {
      keywords := Without(keywords, index);
      toast := SuccessToast("Keyword eliminada");
    }

    /**
     * The "Eliminar" button on row `row` of the filtered table: the row's
     * keyword is looked up in the full list with `indexOf`, and one copy of
     * it is removed.
     */
    method DeleteRow(row: nat) returns (toast: Toast)
      requires row < |Filtered(keywords, filter)|
      modifies this
      ensures var k := old(Filtered(keywords, filter))[row];
              && |keywords| == |old(keywords)| - 1
              && multiset(keywords) == multiset(old(keywords)) - multiset{k}
              && keywords == Without(old(keywords), IndexOf(old(keywords), k))
      ensures filter == old(filter) && dialogOpen == old(dialogOpen) && newKeyword == old(newKeyword)
    {
      var k := Filtered(keywords, filter)[row];
      assert k in Filtered(keywords, filter);
      var index := IndexOf(keywords, k);
      WithoutMultiset(keywords, index);
      toast := DeleteKeyword(index);
    }

    /** Typing in the term field. */
    method EditTerm(term: string)
      modifies this
      ensures newKeyword == old(newKeyword).(term := term)
      ensures keywords == old(keywords) && filter == old(filter) && dialogOpen == old(dialogOpen)
    {
      newKeyword := newKeyword.(term := term);
    }

    /** Typing in the position field. */
    method EditPosition(raw: string)
      modifies this
      ensures newKeyword == old(newKeyword).(position := ParsePosition(raw))
      ensures newKeyword.position != 0
      ensures keywords == old(keywords) && filter == old(filter) && dialogOpen == old(dialogOpen)
    {
      newKeyword := newKeyword.(position := ParsePosition(raw));
    }

    /** Typing in the search box. */
    method SetFilter(f: string)
      modifies this
      ensures filter == f
      ensures keywords == old(keywords) && dialogOpen == old(dialogOpen) && newKeyword == old(newKeyword)
    {
      filter := f;
    }

    /** The dialog's `onOpenChange`. */
    method SetDialogOpen(open: bool)
      modifies this
      ensures dialogOpen == open
      ensures keywords == old(keywords) && filter == old(filter) && newKeyword == old(newKeyword)
    {
      dialogOpen := open;
    }
  }
}

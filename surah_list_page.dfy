/**
 * The chapter list page's search: a blank query shows every chapter;
 * otherwise a chapter stays when its English name, the translation of its
 * name, or its number contains the lower-cased query.
 */
module SurahListPage {
  import QuranApi

  // ---------------------------------------------------------------------
  // String helpers with JavaScript's meaning
  // ---------------------------------------------------------------------

  /** The characters `String.prototype.trim` removes: ECMAScript white space and line terminators. */
  predicate IsJsWhitespace(c: char) {
    var n := c as int;
    || n == 0x09 || n == 0x0B || n == 0x0C || n == 0x20 || n == 0xA0 || n == 0xFEFF
    || n == 0x0A || n == 0x0D || n == 0x2028 || n == 0x2029
    || n == 0x1680 || (0x2000 <= n <= 0x200A) || n == 0x202F || n == 0x205F || n == 0x3000
  }

  /** Drop leading white space. */
  function TrimStart(s: string): (r: string)
    ensures |r| <= |s|
    ensures r == s[|s| - |r|..]
    ensures r != [] ==> !IsJsWhitespace(r[0])
    ensures forall k :: 0 <= k < |s| - |r| ==> IsJsWhitespace(s[k])
  {
    if s != [] && IsJsWhitespace(s[0]) then TrimStart(s[1..]) else s
  }

  /** Drop trailing white space. */
  function TrimEnd(s: string): (r: string)
    ensures |r| <= |s|
    ensures r == s[..|r|]
    ensures r != [] ==> !IsJsWhitespace(r[|r| - 1])
    ensures forall k :: |r| <= k < |s| ==> IsJsWhitespace(s[k])
  {
    if s != [] && IsJsWhitespace(s[|s| - 1]) then TrimEnd(s[..|s| - 1]) else s
  }

  /** `s.trim()`: a contiguous piece of `s` with white space at neither end. */
  function Trim(s: string): (r: string)
    ensures exists i, j :: 0 <= i <= j <= |s| && r == s[i..j]
                          && (forall k :: 0 <= k < i ==> IsJsWhitespace(s[k]))
                          && (forall k :: j <= k < |s| ==> IsJsWhitespace(s[k]))
    ensures r != [] ==> !IsJsWhitespace(r[0]) && !IsJsWhitespace(r[|r| - 1])
  {
    var t := TrimStart(s);
    var r := TrimEnd(t);
    assert r == s[|s| - |t|..|s| - |t| + |r|];
    r
  }

  /** A string trims to "" exactly when all of it is white space. */
  lemma TrimEmptyIffAllWhitespace(s: string)
    ensures Trim(s) == "" <==> forall i :: 0 <= i < |s| ==> IsJsWhitespace(s[i])
  {
    TrimStartEmptyIff(s);
    var t := TrimStart(s);
    TrimEndEmptyIff(t);
    if t != "" {
      // t is a non-empty suffix of s that starts with a non-white character
      assert s[|s| - |t|] == t[0];
    }
  }

  lemma {:induction false} TrimStartEmptyIff(s: string)
    ensures TrimStart(s) == "" <==> forall i :: 0 <= i < |s| ==> IsJsWhitespace(s[i])
  {
    if s != [] && IsJsWhitespace(s[0]) {
      TrimStartEmptyIff(s[1..]);
      assert forall i :: 1 <= i < |s| ==> s[i] == s[1..][i - 1];
    }
  }

  lemma {:induction false} TrimEndEmptyIff(s: string)
    ensures TrimEnd(s) == "" <==> forall i :: 0 <= i < |s| ==> IsJsWhitespace(s[i])
  {
    if s != [] && IsJsWhitespace(s[|s| - 1]) {
      TrimEndEmptyIff(s[..|s| - 1]);
      assert forall i :: 0 <= i < |s| - 1 ==> s[i] == s[..|s| - 1][i];
    }
  }

  /** `toLowerCase` on one character, for the ASCII letters. */
  function LowerChar(c: char): (r: char)
    ensures 'A' <= c <= 'Z' ==> 'a' <= r <= 'z' && r as int - c as int == 32
    ensures !('A' <= c <= 'Z') ==> r == c
  {
    if 'A' <= c <= 'Z' then (c as int + 32) as char else c
  }

  /** `s.toLowerCase()` (ASCII letters only). */
  function ToLower(s: string): (r: string)
    ensures |r| == |s|
    ensures forall i :: 0 <= i < |s| ==> r[i] == LowerChar(s[i])
  {
    seq(|s|, i requires 0 <= i < |s| => LowerChar(s[i]))
  }

  /** Lower-casing twice is lower-casing once. */
  lemma ToLowerIdempotent(s: string)
    ensures ToLower(ToLower(s)) == ToLower(s)
  {
  }

  /** `needle` occurs in `haystack` starting at index i. */
  predicate OccursAt(haystack: string, needle: string, i: int) {
    0 <= i && i + |needle| <= |haystack| && haystack[i..i + |needle|] == needle
  }

  /** `haystack.includes(needle)`. */
  predicate Includes(haystack: string, needle: string)
    ensures Includes(haystack, needle) ==> |needle| <= |haystack|
  {
    exists i :: 0 <= i <= |haystack| && OccursAt(haystack, needle, i)
  }

  /** Every string includes "" and itself. */
  lemma IncludesEmptyAndSelf(s: string)
    ensures Includes(s, "") && Includes(s, s)
  {
    assert OccursAt(s, "", 0);
    assert OccursAt(s, s, 0);
  }

  // ---------------------------------------------------------------------
  // The filter
  // ---------------------------------------------------------------------

  /** The test applied to each chapter, with `query` already lower-cased. */
  predicate MatchesQuery(surah: QuranApi.Surah, query: string)
    ensures query == "" ==> MatchesQuery(surah, query)
  {
    IncludesEmptyAndSelf(ToLower(surah.englishName));
    || Includes(ToLower(surah.englishName), query)
    || Includes(ToLower(surah.englishNameTranslation), query)
    || Includes(QuranApi.IntToString(surah.number), query)
  }

  /** `surahs.filter(surah => MatchesQuery(surah, query))`. */
  function Filter(surahs: seq<QuranApi.Surah>, query: string): (r: seq<QuranApi.Surah>)
    ensures forall s :: s in r <==> s in surahs && MatchesQuery(s, query)
    ensures |r| <= |surahs|
  {
    if surahs == [] then []
    else if MatchesQuery(surahs[0], query) then [surahs[0]] + Filter(surahs[1..], query)
    else Filter(surahs[1..], query)
  }

  /** `sub` is `full` with some elements left out, the rest in their order. */
  predicate IsSubsequence<T(==)>(sub: seq<T>, full: seq<T>)
    decreases |full|
  {
    if sub == [] then true
    else if full == [] then false
    else (sub[0] == full[0] && IsSubsequence(sub[1..], full[1..])) || IsSubsequence(sub, full[1..])
  }

  /** Each matching chapter is kept as often as it is listed, and no other chapter is. */
  lemma {:induction false} FilterKeepsMultiplicity(surahs: seq<QuranApi.Surah>, query: string)
    ensures forall s :: multiset(Filter(surahs, query))[s] == if MatchesQuery(s, query) then multiset(surahs)[s] else 0
  {
    if surahs != [] {
      FilterKeepsMultiplicity(surahs[1..], query);
      assert surahs == [surahs[0]] + surahs[1..];
    }
  }

  /** The filtered list keeps the chapters in their original order. */
  lemma {:induction false} FilterIsSubsequence(surahs: seq<QuranApi.Surah>, query: string)
    ensures IsSubsequence(Filter(surahs, query), surahs)
  {
    if surahs != [] {
      FilterIsSubsequence(surahs[1..], query);
      var rest := Filter(surahs[1..], query);
      if MatchesQuery(surahs[0], query) {
        assert ([surahs[0]] + rest)[1..] == rest;
      }
    }
  }

  /**
   * The search effect: a query that trims to "" shows the whole list;
   * otherwise the lower-cased, untrimmed query filters it.
   */
  function FilterSurahs(surahs: seq<QuranApi.Surah>, searchQuery: string): (r: seq<QuranApi.Surah>)
    ensures Trim(searchQuery) == "" ==> r == surahs
    ensures Trim(searchQuery) != "" ==>
      forall s :: s in r <==> s in surahs && MatchesQuery(s, ToLower(searchQuery))
  {
    if Trim(searchQuery) == "" then surahs else Filter(surahs, ToLower(searchQuery))
  }

  /** Whatever the query, the result lists chapters in the original order. */
  lemma FilterSurahsKeepsOrder(surahs: seq<QuranApi.Surah>, searchQuery: string)
    ensures IsSubsequence(FilterSurahs(surahs, searchQuery), surahs)
  {
    if Trim(searchQuery) == "" {
      SubsequenceReflexive(surahs);
    } else {
      FilterIsSubsequence(surahs, ToLower(searchQuery));
    }
  }

  lemma {:induction false} SubsequenceReflexive<T>(s: seq<T>)
    ensures IsSubsequence(s, s)
  {
    if s != [] {
      SubsequenceReflexive(s[1..]);
    }
  }

  /** The first chapter, as the service lists it. */
  const AlFatiha := QuranApi.Surah(1, "\U{0627}\U{0644}\U{0641}\U{0627}\U{062A}\U{062D}\U{0629}", "Al-Faatiha", "The Opening", 7, "Meccan")

  /** "1" finds chapter 1 through its number. */
  lemma NumberQueryExample()
    ensures FilterSurahs([AlFatiha], "1") == [AlFatiha]
  {
    assert TrimStart("1") == "1";
    assert TrimEnd("1") == "1";
    assert ToLower("1") == "1";
    assert QuranApi.IntToString(1) == "1";
    assert OccursAt("1", "1", 0);
  }

  /** A query of spaces is blank and keeps the whole list. */
  lemma BlankQueryExample()
    ensures FilterSurahs([AlFatiha], "  ") == [AlFatiha]
  {
    TrimEmptyIffAllWhitespace("  ");
  }

  /**
   * Only the blank test trims: " 1" is not blank and, matched with its
   * leading space, finds nothing, while "1" finds chapter 1.
   */
  lemma SpacedQueryExample()
    ensures FilterSurahs([AlFatiha], " 1") == []
  {
    SpacedQueryNotBlank();
    NonBlankQueryFilters([AlFatiha], " 1");
    assert ToLower(" 1") == " 1";
    SpacedQueryMisses();
    SingleMissFilters(AlFatiha, " 1");
  }

  /** A query that is not blank goes to the filter, lower-cased. */
  lemma NonBlankQueryFilters(surahs: seq<QuranApi.Surah>, q: string)
    requires Trim(q) != ""
    ensures FilterSurahs(surahs, q) == Filter(surahs, ToLower(q))
  {
  }

  /** A one-chapter list filters to nothing when the chapter does not match. */
  lemma SingleMissFilters(surah: QuranApi.Surah, q: string)
    requires !MatchesQuery(surah, q)
    ensures Filter([surah], q) == []
  {
    assert [surah][1..] == [];
  }

  lemma SpacedQueryNotBlank()
    ensures Trim(" 1") == "1"
  {
    assert IsJsWhitespace(" 1"[0]) && " 1"[1..] == "1";
    assert !IsJsWhitespace("1"[0]);
    assert TrimStart("1") == "1";
    assert TrimStart(" 1") == "1";
    assert TrimEnd("1") == "1";
  }

  lemma SpacedQueryMisses()
    ensures !MatchesQuery(AlFatiha, " 1")
  {
    NoOccurrence(ToLower(AlFatiha.englishName), " 1");
    NoOccurrence(ToLower(AlFatiha.englishNameTranslation), " 1");
    assert QuranApi.IntToString(1) == "1";
    assert !OccursAt("1", " 1", 0);
  }

  /** A two-character needle ending in '1' does not occur in a text without '1'. */
  lemma NoOccurrence(text: string, q: string)
    requires |q| == 2 && q[1] == '1'
    requires forall k :: 0 <= k < |text| ==> text[k] != '1'
    ensures !Includes(text, q)
  {
    forall i | 0 <= i <= |text|
      ensures !OccursAt(text, q, i)
    {
      if i + 2 <= |text| {
        assert text[i..i + 2][1] == text[i + 1];
      }
    }
  }

  // ---------------------------------------------------------------------
  // The page's state
  // ---------------------------------------------------------------------

  /** The page's list state: the fetched chapters, the shown ones, and the search text. */
  datatype ListState = ListState(surahs: seq<QuranApi.Surah>, filteredSurahs: seq<QuranApi.Surah>, searchQuery: string)

  /** The shown list is the filter of the fetched one by the current query. */
  predicate Consistent(state: ListState) {
    state.filteredSurahs == FilterSurahs(state.surahs, state.searchQuery)
  }

  /** The initial state: nothing fetched, nothing shown, empty search. */
  function Initial(): (state: ListState)
    ensures Consistent(state)
  {
    ListState([], [], "")
  }

  /** The fetch publishes the same list as fetched and as shown. */
  function Loaded(state: ListState, data: seq<QuranApi.Surah>): (r: ListState)
    ensures r.surahs == data && r.filteredSurahs == data && r.searchQuery == state.searchQuery
  {
    state.(surahs := data, filteredSurahs := data)
  }

  /** The effect that runs when the query or the fetched list changes. */
  function Refiltered(state: ListState): (r: ListState)
    ensures Consistent(r)
    ensures r.surahs == state.surahs && r.searchQuery == state.searchQuery
  {
    state.(filteredSurahs := FilterSurahs(state.surahs, state.searchQuery))
  }

  /** With the initial empty query, the list as loaded is already consistent, so the effect changes nothing. */
  lemma LoadWithEmptyQueryConsistent(data: seq<QuranApi.Surah>)
    ensures Consistent(Loaded(Initial(), data))
    ensures Refiltered(Loaded(Initial(), data)) == Loaded(Initial(), data)
  {
    assert Trim("") == "";
  }
}

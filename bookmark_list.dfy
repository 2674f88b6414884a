/**
 * The bookmark list: a chapter map built from the service's chapter list,
 * the bookmarks sorted newest first, and one card per bookmark whose
 * chapter is known.
 */
module BookmarkList {
  import QuranApi
  import opened Bookmarks

  // ---------------------------------------------------------------------
  // The chapter map
  // ---------------------------------------------------------------------

  /** The map left by assigning `surahMap[surah.number] = surah` for each chapter in turn. */
  function SurahMapOf(list: seq<QuranApi.Surah>): (m: map<int, QuranApi.Surah>)
    ensures forall n :: n in m ==> m[n].number == n
  {
    if list == [] then map[]
    else SurahMapOf(list[..|list| - 1])[list[|list| - 1].number := list[|list| - 1]]
  }

  /** `list[i]` is the last chapter of the list with number n. */
  predicate LastWithNumber(list: seq<QuranApi.Surah>, n: int, i: int) {
    0 <= i < |list| && list[i].number == n && forall j :: i < j < |list| ==> list[j].number != n
  }

  /** The map has a key for each number in the list and for nothing else. */
  lemma {:induction false} SurahMapOfKey(list: seq<QuranApi.Surah>, n: int)
    ensures n in SurahMapOf(list) <==> exists i :: 0 <= i < |list| && list[i].number == n
  {
    if list != [] {
      var init, last := list[..|list| - 1], list[|list| - 1];
      SurahMapOfKey(init, n);
      assert SurahMapOf(list) == SurahMapOf(init)[last.number := last];
      if n in SurahMapOf(list) {
        if n != last.number {
          var i :| 0 <= i < |init| && init[i].number == n;
          assert list[i] == init[i];
        }
      } else {
        forall i | 0 <= i < |list|
          ensures list[i].number != n
        {
          if i < |list| - 1 {
            assert list[i] == init[i];
          }
        }
      }
    }
  }

  /** A number maps to the last chapter of the list that carries it. */
  lemma {:induction false} SurahMapOfValue(list: seq<QuranApi.Surah>, n: int)
    requires n in SurahMapOf(list)
    ensures exists i :: LastWithNumber(list, n, i) && SurahMapOf(list)[n] == list[i]
  {
    var init, last := list[..|list| - 1], list[|list| - 1];
    assert SurahMapOf(list) == SurahMapOf(init)[last.number := last];
    if n == last.number {
      assert LastWithNumber(list, n, |list| - 1);
    } else {
      SurahMapOfValue(init, n);
      var i :| LastWithNumber(init, n, i) && SurahMapOf(init)[n] == init[i];
      assert list[i] == init[i];
      assert forall j :: i < j < |init| ==> list[j] == init[j];
      assert LastWithNumber(list, n, i);
    }
  }

  /** The `forEach` that builds `surahMap`. */
  method BuildSurahMap(allSurahs: seq<QuranApi.Surah>) returns (surahMap: map<int, QuranApi.Surah>)
    ensures surahMap == SurahMapOf(allSurahs)
  {
    surahMap := map[];
    for i := 0 to |allSurahs|
      invariant surahMap == SurahMapOf(allSurahs[..i])
    {
      assert allSurahs[..i + 1][..i] == allSurahs[..i];
      surahMap := surahMap[allSurahs[i].number := allSurahs[i]];
    }
    assert allSurahs[..|allSurahs|] == allSurahs;
  }

  // ---------------------------------------------------------------------
  // Newest first
  // ---------------------------------------------------------------------

  /** Time stamps never increase along the list. */
  predicate NewestFirst(list: seq<BookmarkItem>) {
    forall i, j :: 0 <= i < j < |list| ==> list[i].timestamp >= list[j].timestamp
  }

  /** Put `item` before the first entry that is not newer than it. */
  function InsertByRecency(item: BookmarkItem, sorted: seq<BookmarkItem>): (r: seq<BookmarkItem>)
    requires NewestFirst(sorted)
    ensures NewestFirst(r)
    ensures multiset(r) == multiset(sorted) + multiset{item}
  {
    if sorted == [] || item.timestamp >= sorted[0].timestamp then
      [item] + sorted
    else
      var rest := InsertByRecency(item, sorted[1..]);
      assert sorted == [sorted[0]] + sorted[1..];
      HeadStaysNewest(sorted[0], item, sorted[1..], rest);
      [sorted[0]] + rest
  }

  /**
   * A head newer than `item` and no older than anything in `tail` stays in
   * front of `item` inserted into `tail`.
   */
  lemma HeadStaysNewest(head: BookmarkItem, item: BookmarkItem, tail: seq<BookmarkItem>, rest: seq<BookmarkItem>)
    requires NewestFirst([head] + tail) && NewestFirst(rest)
    requires head.timestamp > item.timestamp
    requires multiset(rest) == multiset(tail) + multiset{item}
    ensures NewestFirst([head] + rest)
  {
    var r := [head] + rest;
    forall i, j | 0 <= i < j < |r|
      ensures r[i].timestamp >= r[j].timestamp
    {
      assert r[j] == rest[j - 1];
      if i == 0 {
        assert r[0] == head;
        assert rest[j - 1] in multiset(rest);
        if rest[j - 1] != item {
          assert rest[j - 1] in multiset(tail);
          var k :| 0 <= k < |tail| && tail[k] == rest[j - 1];
          assert ([head] + tail)[0] == head;
          assert ([head] + tail)[k + 1] == tail[k];
        }
      } else {
        assert r[i] == rest[i - 1];
      }
    }
  }

  /** `[...bookmarks].sort((a, b) => b.timestamp - a.timestamp)`: the same entries, newest first. */
  function SortByRecency(list: seq<BookmarkItem>): (r: seq<BookmarkItem>)
    ensures NewestFirst(r)
    ensures multiset(r) == multiset(list)
  {
    if list == [] then []
    else
      assert list == [list[0]] + list[1..];
      InsertByRecency(list[0], SortByRecency(list[1..]))
  }

  /** A list that is already newest first is left as it is. */
  lemma {:induction false} SortByRecencyKeepsSorted(list: seq<BookmarkItem>)
    requires NewestFirst(list)
    ensures SortByRecency(list) == list
  {
    if list != [] {
      SortByRecencyKeepsSorted(list[1..]);
      assert list == [list[0]] + list[1..];
    }
  }

  // ---------------------------------------------------------------------
  // The rendered list
  // ---------------------------------------------------------------------

  /** One rendered bookmark: the bookmark and the chapter it belongs to. */
  datatype BookmarkCard = BookmarkCard(bookmark: BookmarkItem, surah: QuranApi.Surah)

  /** What the list shows once loaded: the empty state, or the cards. */
  datatype ListView = EmptyState | Cards(cards: seq<BookmarkCard>)

  /** The bookmarks behind a sequence of cards, in card order. */
  function CardBookmarks(cards: seq<BookmarkCard>): (r: seq<BookmarkItem>)
    ensures |r| == |cards|
    ensures forall i :: 0 <= i < |cards| ==> r[i] == cards[i].bookmark
  {
    if cards == [] then [] else [cards[0].bookmark] + CardBookmarks(cards[1..])
  }

  /**
   * The `map` over the sorted bookmarks that renders nothing for an unknown
   * chapter: each bookmark with a known chapter gets exactly as many cards
   * as it has entries in the list, and every other bookmark none.
   */
  function CardsFor(sorted: seq<BookmarkItem>, surahMap: map<int, QuranApi.Surah>): (r: seq<BookmarkCard>)
    ensures |r| <= |sorted|
    ensures forall b :: multiset(CardBookmarks(r))[b] == if b.surahNumber in surahMap then multiset(sorted)[b] else 0
    ensures forall c :: c in r ==>
      c.bookmark in sorted && c.bookmark.surahNumber in surahMap && c.surah == surahMap[c.bookmark.surahNumber]
    ensures forall b :: b in sorted && b.surahNumber in surahMap ==> BookmarkCard(b, surahMap[b.surahNumber]) in r
  {
    if sorted == [] then []
    else
      var rest := CardsFor(sorted[1..], surahMap);
      assert forall b :: b in sorted[1..] ==> b in sorted;
      assert forall b :: b in sorted ==> b == sorted[0] || b in sorted[1..];
      assert sorted == [sorted[0]] + sorted[1..];
      if sorted[0].surahNumber in surahMap then
        var card := BookmarkCard(sorted[0], surahMap[sorted[0].surahNumber]);
        assert CardBookmarks([card] + rest) == [sorted[0]] + CardBookmarks(rest) by {
          assert ([card] + rest)[1..] == rest;
        }
        [card] + rest
      else rest
  }

  /** The cards' bookmarks are newest first. */
  predicate CardsNewestFirst(cards: seq<BookmarkCard>) {
    forall i, j :: 0 <= i < j < |cards| ==> cards[i].bookmark.timestamp >= cards[j].bookmark.timestamp
  }

  /** Skipping cards keeps the order of the sorted bookmarks: the cards are newest first too. */
  lemma {:induction false} CardsForNewestFirst(sorted: seq<BookmarkItem>, surahMap: map<int, QuranApi.Surah>)
    requires NewestFirst(sorted)
    ensures CardsNewestFirst(CardsFor(sorted, surahMap))
  {
    if sorted != [] {
      var tail := sorted[1..];
      var rest := CardsFor(tail, surahMap);
      CardsForNewestFirst(tail, surahMap);
      if sorted[0].surahNumber in surahMap {
        forall c | c in rest
          ensures sorted[0].timestamp >= c.bookmark.timestamp
        {
          var k :| 0 <= k < |tail| && tail[k] == c.bookmark;
          assert tail[k] == sorted[k + 1];
        }
        CardInFront(BookmarkCard(sorted[0], surahMap[sorted[0].surahNumber]), rest);
      }
    }
  }

  /** A card at least as new as every card behind it can go in front of a newest-first list. */
  lemma CardInFront(first: BookmarkCard, rest: seq<BookmarkCard>)
    requires CardsNewestFirst(rest)
    requires forall c :: c in rest ==> first.bookmark.timestamp >= c.bookmark.timestamp
    ensures CardsNewestFirst([first] + rest)
  {
    var r := [first] + rest;
    forall i, j | 0 <= i < j < |r|
      ensures r[i].bookmark.timestamp >= r[j].bookmark.timestamp
    {
      assert r[j] == rest[j - 1] && rest[j - 1] in rest;
      if i > 0 {
        assert r[i] == rest[i - 1];
      }
    }
  }

  /**
   * The list once loaded: the empty state without bookmarks, otherwise a
   * card for every bookmark whose chapter is known.
   */
  function BookmarkView(bookmarks: seq<BookmarkItem>, surahMap: map<int, QuranApi.Surah>): (v: ListView)
    ensures v == EmptyState <==> |bookmarks| == 0
    ensures v.Cards? ==> forall c :: c in v.cards ==>
      c.bookmark in bookmarks && c.bookmark.surahNumber in surahMap && c.surah == surahMap[c.bookmark.surahNumber]
    ensures v.Cards? ==> forall b :: b in bookmarks && b.surahNumber in surahMap ==>
      BookmarkCard(b, surahMap[b.surahNumber]) in v.cards
    ensures v.Cards? ==> CardsNewestFirst(v.cards)
    ensures v.Cards? ==> forall b ::
      multiset(CardBookmarks(v.cards))[b] == if b.surahNumber in surahMap then multiset(bookmarks)[b] else 0
  {
    if |bookmarks| == 0 then EmptyState
    else
      var sorted := SortByRecency(bookmarks);
      assert forall b :: b in bookmarks <==> b in sorted by {
        assert forall b :: b in bookmarks <==> b in multiset(bookmarks);
        assert forall b :: b in sorted <==> b in multiset(sorted);
      }
      CardsForNewestFirst(sorted, surahMap);
      Cards(CardsFor(sorted, surahMap))
  }
}

/**
 * The bookmark store: a list of bookmarked verses, each with the time it
 * was added, and the last-read position. The clock (`Date.now()`) is a
 * parameter of the actions that read it.
 */
module Bookmarks {
  import opened Wrappers

  /** A bookmarked verse, or the last-read position, with its time stamp in milliseconds. */
  datatype BookmarkItem = BookmarkItem(surahNumber: int, ayahNumber: int, timestamp: int)

  /** The test of `isBookmarked` and `removeBookmark`: the item is at (surah, ayah). */
  predicate At(item: BookmarkItem, surah: int, ayah: int) {
    item.surahNumber == surah && item.ayahNumber == ayah
  }

  /** Two items name the same verse. */
  predicate SamePosition(x: BookmarkItem, y: BookmarkItem) {
    At(x, y.surahNumber, y.ayahNumber)
  }

  /** No verse is bookmarked twice. */
  predicate DistinctPositions(list: seq<BookmarkItem>) {
    forall i, j :: 0 <= i < j < |list| ==> !SamePosition(list[i], list[j])
  }

  /** `bookmarks.some(b => b is at (surah, ayah))`. */
  function AnyAt(list: seq<BookmarkItem>, surah: int, ayah: int): (r: bool)
    ensures r <==> exists i :: 0 <= i < |list| && At(list[i], surah, ayah)
  {
    if list == [] then false
    else if At(list[0], surah, ayah) then true
    else
      var r := AnyAt(list[1..], surah, ayah);
      assert forall i :: 1 <= i < |list| ==> list[i] == list[1..][i - 1];
      r
  }

  /** `bookmarks.filter(b => b.surahNumber !== surah || b.ayahNumber !== ayah)`. */
  function Without(list: seq<BookmarkItem>, surah: int, ayah: int): (r: seq<BookmarkItem>)
    ensures forall b :: b in r <==> b in list && !At(b, surah, ayah)
    ensures |r| <= |list|
  {
    if list == [] then []
    else if At(list[0], surah, ayah) then Without(list[1..], surah, ayah)
    else [list[0]] + Without(list[1..], surah, ayah)
  }

  /** Filtering a concatenation filters each part: the order of the kept items is the original one. */
  lemma {:induction false} WithoutAppend(x: seq<BookmarkItem>, y: seq<BookmarkItem>, surah: int, ayah: int)
    ensures Without(x + y, surah, ayah) == Without(x, surah, ayah) + Without(y, surah, ayah)
  {
    if x != [] {
      assert (x + y)[1..] == x[1..] + y;
      WithoutAppend(x[1..], y, surah, ayah);
    } else {
      assert x + y == y;
    }
  }

  /** Without drops nothing when no item is at the position. */
  lemma {:induction false} WithoutNoMatch(list: seq<BookmarkItem>, surah: int, ayah: int)
    requires !AnyAt(list, surah, ayah)
    ensures Without(list, surah, ayah) == list
  {
    if list != [] {
      assert !At(list[0], surah, ayah);
      WithoutNoMatch(list[1..], surah, ayah);
    }
  }

  /** Removing twice is removing once. */
  lemma WithoutIdempotent(list: seq<BookmarkItem>, surah: int, ayah: int)
    ensures Without(Without(list, surah, ayah), surah, ayah) == Without(list, surah, ayah)
  {
    WithoutNoMatch(Without(list, surah, ayah), surah, ayah);
  }

  /** Removing keeps the list free of duplicate verses. */
  lemma {:induction false} WithoutKeepsDistinct(list: seq<BookmarkItem>, surah: int, ayah: int)
    requires DistinctPositions(list)
    ensures DistinctPositions(Without(list, surah, ayah))
  {
    if list != [] {
      WithoutKeepsDistinct(list[1..], surah, ayah);
      var rest := Without(list[1..], surah, ayah);
      if !At(list[0], surah, ayah) {
        forall b | b in rest
          ensures !SamePosition(list[0], b)
        {
          var k :| 0 <= k < |list[1..]| && list[1..][k] == b;
          assert list[k + 1] == b;
        }
        var r := [list[0]] + rest;
        forall i, j | 0 <= i < j < |r|
          ensures !SamePosition(r[i], r[j])
        {
          if i == 0 {
            assert r[j] in rest;
          } else {
            assert r[i] == rest[i - 1] && r[j] == rest[j - 1];
          }
        }
      }
    }
  }

  /** Appending a verse that is not yet in the list keeps it free of duplicates. */
  lemma AppendKeepsDistinct(list: seq<BookmarkItem>, item: BookmarkItem)
    requires DistinctPositions(list)
    requires !AnyAt(list, item.surahNumber, item.ayahNumber)
    ensures DistinctPositions(list + [item])
  {
    var r := list + [item];
    forall i, j | 0 <= i < j < |r|
      ensures !SamePosition(r[i], r[j])
    {
      if j == |list| {
        assert r[i] == list[i];
        assert !At(list[i], item.surahNumber, item.ayahNumber);
      } else {
        assert r[i] == list[i] && r[j] == list[j];
      }
    }
  }

  /** Adding a verse that was not bookmarked and then removing it gives back the old list. */
  lemma RemoveUndoesAdd(list: seq<BookmarkItem>, surah: int, ayah: int, now: int)
    requires !AnyAt(list, surah, ayah)
    ensures Without(list + [BookmarkItem(surah, ayah, now)], surah, ayah) == list
  {
    WithoutAppend(list, [BookmarkItem(surah, ayah, now)], surah, ayah);
    WithoutNoMatch(list, surah, ayah);
    assert [BookmarkItem(surah, ayah, now)][1..] == [];
  }

  /** `useBookmarkStore`. */
  class BookmarkStore {
    var bookmarks: seq<BookmarkItem>
    var lastRead: Option<BookmarkItem>

    /** No verse is bookmarked twice. */
    ghost predicate Valid()
      reads this
    {
      DistinctPositions(bookmarks)
    }

    /** The initial state: no bookmarks, nothing read yet. */
    constructor ()
      ensures Valid()
      ensures bookmarks == [] && lastRead == None
    {
      bookmarks := [];
      lastRead := None;
    }

    /** `isBookmarked(surah, ayah)`: some bookmark is at the verse. */
    function IsBookmarked(surah: int, ayah: int): (r: bool)
      reads this
      ensures r <==> exists i :: 0 <= i < |bookmarks| && At(bookmarks[i], surah, ayah)
    {
      AnyAt(bookmarks, surah, ayah)
    }

    /** `addBookmark(surah, ayah)` at time `now`: append unless the verse is already bookmarked. */
    method AddBookmark(surah: int, ayah: int, now: int)
      requires Valid()
      modifies this
      ensures Valid()
      ensures old(IsBookmarked(surah, ayah)) ==> bookmarks == old(bookmarks)
      ensures !old(IsBookmarked(surah, ayah)) ==> bookmarks == old(bookmarks) + [BookmarkItem(surah, ayah, now)]
      ensures IsBookmarked(surah, ayah)
      ensures lastRead == old(lastRead)
    {
      var isAlreadyBookmarked := IsBookmarked(surah, ayah);
      if !isAlreadyBookmarked {
        AppendKeepsDistinct(bookmarks, BookmarkItem(surah, ayah, now));
        bookmarks := bookmarks + [BookmarkItem(surah, ayah, now)];
        assert At(bookmarks[|bookmarks| - 1], surah, ayah);
      }
    }

    /** `removeBookmark(surah, ayah)`: keep every bookmark that is not at the verse, in order. */
    method RemoveBookmark(surah: int, ayah: int)
      requires Valid()
      modifies this
      ensures Valid()
      ensures bookmarks == Without(old(bookmarks), surah, ayah)
      ensures !IsBookmarked(surah, ayah)
      ensures lastRead == old(lastRead)
    {
      WithoutKeepsDistinct(bookmarks, surah, ayah);
      bookmarks := Without(bookmarks, surah, ayah);
    }

    /** `setLastRead(surah, ayah)` at time `now`: the bookmarks are untouched. */
    method SetLastRead(surah: int, ayah: int, now: int)
      requires Valid()
      modifies this
      ensures Valid()
      ensures lastRead == Some(BookmarkItem(surah, ayah, now))
      ensures bookmarks == old(bookmarks)
    {
      lastRead := Some(BookmarkItem(surah, ayah, now));
    }
  }

  /**
   * The bookmark button of a verse card: remove the verse if it is
   * bookmarked, add it (stamped `now`) otherwise.
   */
  method ToggleBookmark(store: BookmarkStore, surah: int, ayah: int, now: int)
    requires store.Valid()
    modifies store
    ensures store.Valid()
    ensures store.IsBookmarked(surah, ayah) == !old(store.IsBookmarked(surah, ayah))
    ensures old(store.IsBookmarked(surah, ayah)) ==> store.bookmarks == Without(old(store.bookmarks), surah, ayah)
    ensures !old(store.IsBookmarked(surah, ayah)) ==> store.bookmarks == old(store.bookmarks) + [BookmarkItem(surah, ayah, now)]
    ensures store.lastRead == old(store.lastRead)
  {
    if store.IsBookmarked(surah, ayah) {
      store.RemoveBookmark(surah, ayah);
    } else {
      store.AddBookmark(surah, ayah, now);
    }
  }
}

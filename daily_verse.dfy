/**
 * The verse of the day: a chapter and a verse chosen from the day of the
 * year, its translation, and the card's bookmark and play buttons. The day
 * of the year, the service's answers and the clock are parameters.
 */
module DailyVerse {
  import opened Wrappers
  import QuranApi
  import Audio
  import Bookmarks

  /** `(dayOfYear % 114) + 1`: the chapter of the day. */
  function DailySurahNumber(dayOfYear: nat): (surah: int)
    ensures 1 <= surah <= QuranApi.LastSurah
  {
    dayOfYear % 114 + 1
  }

  /** The choice depends on nothing but the day: days 114 apart show the same chapter. */
  lemma DailySurahRepeatsYearly(dayOfYear: nat)
    ensures DailySurahNumber(dayOfYear + 114) == DailySurahNumber(dayOfYear)
  {
  }

  /**
   * JavaScript's `dayOfYear % n` for a non-negative day: the sign of `n`
   * does not matter and `n == 0` gives NaN, modelled as None.
   */
  function JsRemainder(dayOfYear: nat, n: int): (r: Option<nat>)
    ensures r.None? <==> n == 0
    ensures r.Some? ==> r.value < if n < 0 then -n else n
    ensures r.Some? ==> exists q: int :: dayOfYear == q * n + r.value
  {
    if n == 0 then None
    else
      var m := if n < 0 then -n else n;
      var r := dayOfYear % m;
      assert dayOfYear == (dayOfYear / m) * m + r;
      if n < 0 then
        assert dayOfYear == (-(dayOfYear / m)) * n + r;
        Some(r)
      else Some(r)
  }

  /** The chapter response as the page receives it: the chapter record and, maybe, its verses. */
  datatype SurahDetail = SurahDetail(info: QuranApi.Surah, ayahs: Option<seq<QuranApi.Ayah>>)

  datatype LoadError = SurahLoadFailed | AyahLoadFailed | TranslationLoadFailed

  /** The verse of the day and its position in the chapter's verse list. */
  datatype DailyPick = DailyPick(ayah: QuranApi.Ayah, ayahIndex: nat)

  /**
   * The selection of `fetchDailyVerse`: fail without a chapter or with an
   * empty verse list; index by the day modulo the chapter's verse count
   * (from its record, not from the list); fail when no verse is there;
   * give the verse a chapter record when it has none.
   */
  function SelectDailyVerse(dayOfYear: nat, surah: Option<SurahDetail>): (r: Result<DailyPick, LoadError>)
    ensures r.Err? && r.error == SurahLoadFailed <==>
      surah.None? || surah.value.ayahs.None? || |surah.value.ayahs.value| == 0
    ensures r.Ok? ==>
      && surah.Some? && surah.value.ayahs.Some?
      && JsRemainder(dayOfYear, surah.value.info.numberOfAyahs) == Some(r.value.ayahIndex)
      && r.value.ayahIndex < |surah.value.ayahs.value|
      && r.value.ayah == QuranApi.FillSurah(surah.value.ayahs.value[r.value.ayahIndex], surah.value.info)
      && r.value.ayah.surah.Some?
    ensures r.Err? && r.error != SurahLoadFailed ==> r.error == AyahLoadFailed
    ensures r.Ok? <==>
      && surah.Some? && surah.value.ayahs.Some? && |surah.value.ayahs.value| > 0
      && JsRemainder(dayOfYear, surah.value.info.numberOfAyahs).Some?
      && JsRemainder(dayOfYear, surah.value.info.numberOfAyahs).value < |surah.value.ayahs.value|
  {
    if surah.None? || surah.value.ayahs.None? || |surah.value.ayahs.value| == 0 then Err(SurahLoadFailed)
    else
      var ayahs := surah.value.ayahs.value;
      match JsRemainder(dayOfYear, surah.value.info.numberOfAyahs)
      case None => Err(AyahLoadFailed)
      case Some(ayahIndex) =>
        if ayahIndex >= |ayahs| then Err(AyahLoadFailed)
        else Ok(DailyPick(QuranApi.FillSurah(ayahs[ayahIndex], surah.value.info), ayahIndex))
  }

  /** When the record's verse count matches the list, every day finds a verse. */
  lemma SelectDailyVerseSucceeds(dayOfYear: nat, surah: SurahDetail)
    requires surah.ayahs.Some? && |surah.ayahs.value| > 0
    requires surah.info.numberOfAyahs == |surah.ayahs.value|
    ensures SelectDailyVerse(dayOfYear, Some(surah)).Ok?
    ensures SelectDailyVerse(dayOfYear, Some(surah)).value.ayahIndex == dayOfYear % |surah.ayahs.value|
  {
    var n := |surah.ayahs.value|;
    var r := JsRemainder(dayOfYear, n);
    var q :| dayOfYear == q * n + r.value;
    DivModUnique(dayOfYear, n, q, r.value);
  }

  /** Euclidean division has one quotient and remainder. */
  lemma DivModUnique(a: nat, n: int, q: int, r: nat)
    requires n > 0 && r < n && a == q * n + r
    ensures r == a % n
  {
    var q', r' := a / n, a % n;
    assert a == q' * n + r';
    if q < q' {
      AtLeastOneMore(q, q', n);
    } else if q' < q {
      AtLeastOneMore(q', q, n);
    }
  }

  /** A larger quotient adds at least one more divisor. */
  lemma AtLeastOneMore(q1: int, q2: int, n: int)
    requires q1 < q2 && n > 0
    ensures q1 * n + n <= q2 * n
  {
    var k := q2 - q1;
    assert q2 * n == q1 * n + k * n;
    MultipleAtLeast(k, n);
  }

  /** k copies of a positive n, for k >= 1, are at least n. */
  lemma {:induction false} MultipleAtLeast(k: int, n: int)
    requires k >= 1 && n > 0
    ensures k * n >= n
    decreases k
  {
    if k > 1 {
      MultipleAtLeast(k - 1, n);
      assert k * n == (k - 1) * n + n;
    }
  }

  /** `translations && translations.length > ayahIndex ? translations[ayahIndex] : null`. */
  function PickTranslation(translations: Option<seq<QuranApi.Translation>>, ayahIndex: nat): (r: Option<QuranApi.Translation>)
    ensures r.Some? <==> translations.Some? && ayahIndex < |translations.value|
    ensures r.Some? ==> r.value in translations.value
  {
    if translations.Some? && |translations.value| > ayahIndex then Some(translations.value[ayahIndex]) else None
  }

  /** The translation shown is the one at the verse's own position in the edition's list. */
  lemma PickTranslationPosition(translations: seq<QuranApi.Translation>, ayahIndex: nat)
    requires ayahIndex < |translations|
    ensures PickTranslation(Some(translations), ayahIndex) == Some(translations[ayahIndex])
  {
  }

  /** The selection made from the service's answer for the chapter of the day. */
  function DailyPickFor(dayOfYear: nat, getSurah: int -> Option<SurahDetail>): Result<DailyPick, LoadError> {
    SelectDailyVerse(dayOfYear, getSurah(DailySurahNumber(dayOfYear)))
  }

  /** The service's answer for the translation of the chapter of the day in the given edition. */
  function DailyTranslations(dayOfYear: nat, translationLanguage: string,
                             getTranslation: (int, string) -> Result<Option<seq<QuranApi.Translation>>, LoadError>)
    : Result<Option<seq<QuranApi.Translation>>, LoadError>
  {
    getTranslation(DailySurahNumber(dayOfYear), translationLanguage)
  }

  /**
   * When the service answers with the chapter that was asked for, and no
   * verse in it carries another chapter's record, the verse of the day
   * belongs to the chapter of the day.
   */
  lemma DailyVerseFromChapterOfDay(dayOfYear: nat, getSurah: int -> Option<SurahDetail>)
    requires var detail := getSurah(DailySurahNumber(dayOfYear));
      detail.Some? ==>
        && detail.value.info.number == DailySurahNumber(dayOfYear)
        && (detail.value.ayahs.Some? ==> forall a :: a in detail.value.ayahs.value && a.surah.Some? ==>
              a.surah.value.number == DailySurahNumber(dayOfYear))
    ensures DailyPickFor(dayOfYear, getSurah).Ok? ==>
      DailyPickFor(dayOfYear, getSurah).value.ayah.surah.value.number == DailySurahNumber(dayOfYear)
  {
    var detail := getSurah(DailySurahNumber(dayOfYear));
    var r := DailyPickFor(dayOfYear, getSurah);
    if r.Ok? {
      var original := detail.value.ayahs.value[r.value.ayahIndex];
      assert original in detail.value.ayahs.value;
    }
  }

  /** The card's state. */
  class DailyVerseCard {
    var dailyVerse: Option<QuranApi.Ayah>
    var translation: Option<QuranApi.Translation>
    var isLoading: bool

    /** The initial state: loading, nothing chosen yet. */
    constructor ()
      ensures dailyVerse.None? && translation.None? && isLoading
    {
      dailyVerse := None;
      translation := None;
      isLoading := true;
    }

    /**
     * `fetchDailyVerse` for a given day: the chapter of the day is asked of
     * `getSurah`, and its translation in the configured edition of
     * `getTranslation` (an error when that request throws). On success the
     * verse and its translation are shown; on any failure the card keeps
     * what it had. Loading ends either way.
     */
    method FetchDailyVerse(dayOfYear: nat, translationLanguage: string,
                           getSurah: int -> Option<SurahDetail>,
                           getTranslation: (int, string) -> Result<Option<seq<QuranApi.Translation>>, LoadError>)
      returns (outcome: Result<DailyPick, LoadError>)
      modifies this
      ensures !isLoading
      ensures DailyPickFor(dayOfYear, getSurah).Err? ==> outcome == DailyPickFor(dayOfYear, getSurah)
      ensures DailyPickFor(dayOfYear, getSurah).Ok? && DailyTranslations(dayOfYear, translationLanguage, getTranslation).Err? ==>
        outcome == Err(TranslationLoadFailed)
      ensures DailyPickFor(dayOfYear, getSurah).Ok? && DailyTranslations(dayOfYear, translationLanguage, getTranslation).Ok? ==>
        outcome.Ok?
      ensures outcome.Err? ==> dailyVerse == old(dailyVerse) && translation == old(translation)
      ensures outcome.Ok? ==>
        && outcome == DailyPickFor(dayOfYear, getSurah)
        && DailyTranslations(dayOfYear, translationLanguage, getTranslation).Ok?
        && dailyVerse == Some(outcome.value.ayah)
        && translation == PickTranslation(DailyTranslations(dayOfYear, translationLanguage, getTranslation).value,
                                          outcome.value.ayahIndex)
    {
      isLoading := true;
      var surahNumber := DailySurahNumber(dayOfYear);
      var surah := getSurah(surahNumber);
      var pick := SelectDailyVerse(dayOfYear, surah);
      if pick.Err? {
        isLoading := false;
        return pick;
      }
      var translations := getTranslation(surahNumber, translationLanguage);
      if translations.Err? {
        isLoading := false;
        return Err(TranslationLoadFailed);
      }
      dailyVerse := Some(pick.value.ayah);
      translation := PickTranslation(translations.value, pick.value.ayahIndex);
      isLoading := false;
      return pick;
    }

    /** `handleBookmarkToggle`: toggle the shown verse; without one (or without its chapter) do nothing. */
    method HandleBookmarkToggle(bookmarks: Bookmarks.BookmarkStore, now: int)
      requires bookmarks.Valid()
      modifies bookmarks
      ensures bookmarks.Valid()
      ensures bookmarks.lastRead == old(bookmarks.lastRead)
      ensures dailyVerse.None? || dailyVerse.value.surah.None? ==> bookmarks.bookmarks == old(bookmarks.bookmarks)
      ensures dailyVerse.Some? && dailyVerse.value.surah.Some? ==>
        var s, a := dailyVerse.value.surah.value.number, dailyVerse.value.numberInSurah;
        && bookmarks.IsBookmarked(s, a) == !old(bookmarks.IsBookmarked(s, a))
        && (old(bookmarks.IsBookmarked(s, a)) ==> bookmarks.bookmarks == Bookmarks.Without(old(bookmarks.bookmarks), s, a))
        && (!old(bookmarks.IsBookmarked(s, a)) ==>
              bookmarks.bookmarks == old(bookmarks.bookmarks) + [Bookmarks.BookmarkItem(s, a, now)])
    {
      if dailyVerse.None? || dailyVerse.value.surah.None? {
        return;
      }
      Bookmarks.ToggleBookmark(bookmarks, dailyVerse.value.surah.value.number, dailyVerse.value.numberInSurah, now);
    }

    /** `handlePlay`: play the shown verse; without one (or without its chapter) do nothing. */
    method HandlePlay(player: Audio.AudioState, reciter: string, started: bool)
      requires player.Valid()
      modifies player, player.audio
      ensures player.Valid()
      ensures dailyVerse.None? || dailyVerse.value.surah.None? ==>
        player.State() == old(player.State()) && (player.audio != null ==> player.audio.View() == old(player.audio.View()))
      ensures dailyVerse.Some? && dailyVerse.value.surah.Some? ==>
        var s, a := dailyVerse.value.surah.value.number, dailyVerse.value.numberInSurah;
        if Audio.Playable(s, a) then player.Settled(s, a, reciter, started) && player.volume == old(player.volume)
        else player.State() == old(player.State()).(isLoading := false)
    {
      if dailyVerse.None? || dailyVerse.value.surah.None? {
        return;
      }
      player.Play(dailyVerse.value.surah.value.number, dailyVerse.value.numberInSurah, reciter, started);
    }
  }
}

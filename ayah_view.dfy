/**
 * One verse on a chapter page: whether it renders, whether it is the verse
 * being played, what its play/pause and bookmark buttons do, and the text
 * size classes chosen from the font-size settings.
 */
module AyahView {
  import opened Wrappers
  import QuranApi
  import Audio
  import Bookmarks
  import Settings

  /**
   * The guard at the top of the view: a verse renders only when it is
   * present and carries its chapter; then its position is that chapter's
   * number and its number within the chapter.
   */
  function RenderedPosition(ayah: Option<QuranApi.Ayah>): (pos: Option<(int, int)>)
    ensures pos.Some? <==> ayah.Some? && ayah.value.surah.Some?
    ensures pos.Some? ==> pos.value == (ayah.value.surah.value.number, ayah.value.numberInSurah)
  {
    match ayah
    case None => None
    case Some(a) =>
      match a.surah
      case None => None
      case Some(ref) => Some((ref.number, a.numberInSurah))
  }

  /** `isCurrentlyPlaying`: the store is playing and its position is this verse's. */
  predicate IsCurrentlyPlaying(isPlaying: bool, currentSurah: Option<int>, currentAyah: Option<int>, ayah: QuranApi.Ayah)
    requires ayah.surah.Some?
    ensures IsCurrentlyPlaying(isPlaying, currentSurah, currentAyah, ayah) ==> isPlaying && currentSurah.Some? && currentAyah.Some?
  {
    isPlaying && currentSurah == Some(ayah.surah.value.number) && currentAyah == Some(ayah.numberInSurah)
  }

  /** Two verses at different positions are never both highlighted as playing. */
  lemma AtMostOneVersePlaying(isPlaying: bool, currentSurah: Option<int>, currentAyah: Option<int>,
                              a: QuranApi.Ayah, b: QuranApi.Ayah)
    requires a.surah.Some? && b.surah.Some?
    requires IsCurrentlyPlaying(isPlaying, currentSurah, currentAyah, a)
    requires IsCurrentlyPlaying(isPlaying, currentSurah, currentAyah, b)
    ensures a.surah.value.number == b.surah.value.number && a.numberInSurah == b.numberInSurah
  {
  }

  /** In a store state that can be reached, a verse shown as playing has an audio element behind it. */
  lemma PlayingVerseHasAudio(store: Audio.AudioState, ayah: QuranApi.Ayah)
    requires store.Valid() && ayah.surah.Some?
    requires IsCurrentlyPlaying(store.isPlaying, store.currentSurah, store.currentAyah, ayah)
    ensures store.audio != null
    ensures Audio.Playable(ayah.surah.value.number, ayah.numberInSurah)
  {
  }

  /** What the play/pause button does. */
  datatype PlayPauseAction = PauseAction | PlayAction(surah: int, ayah: int)

  /** The choice in `handlePlayPause`: pause the verse that is playing, play any other. */
  function PlayPauseChoice(isPlaying: bool, currentSurah: Option<int>, currentAyah: Option<int>, ayah: QuranApi.Ayah)
    : PlayPauseAction
    requires ayah.surah.Some?
  {
    if IsCurrentlyPlaying(isPlaying, currentSurah, currentAyah, ayah) then PauseAction
    else PlayAction(ayah.surah.value.number, ayah.numberInSurah)
  }

  /**
   * `handlePlayPause` on a rendered verse: when it is the verse playing,
   * the store pauses; otherwise the store plays it.
   */
  method HandlePlayPause(player: Audio.AudioState, ayah: QuranApi.Ayah, reciter: string, started: bool)
    requires player.Valid() && ayah.surah.Some?
    modifies player, player.audio
    ensures player.Valid()
    ensures old(IsCurrentlyPlaying(player.isPlaying, player.currentSurah, player.currentAyah, ayah)) ==>
      player.State() == old(player.State()).(isPlaying := false)
      && player.audio.View() == old(player.audio.View()).(paused := true)
    ensures !old(IsCurrentlyPlaying(player.isPlaying, player.currentSurah, player.currentAyah, ayah)) ==>
      var s, a := ayah.surah.value.number, ayah.numberInSurah;
      if Audio.Playable(s, a) then player.Settled(s, a, reciter, started) && player.volume == old(player.volume)
      else player.State() == old(player.State()).(isLoading := false)
  {
    match PlayPauseChoice(player.isPlaying, player.currentSurah, player.currentAyah, ayah) {
      case PauseAction =>
        PlayingVerseHasAudio(player, ayah);
        player.Pause();
      case PlayAction(s, a) =>
        player.Play(s, a, reciter, started);
    }
  }

  /** `handleBookmarkToggle` on a rendered verse: a bookmarked verse is removed, any other is added. */
  method HandleBookmarkToggle(bookmarks: Bookmarks.BookmarkStore, ayah: QuranApi.Ayah, now: int)
    requires bookmarks.Valid() && ayah.surah.Some?
    modifies bookmarks
    ensures bookmarks.Valid()
    ensures var s, a := ayah.surah.value.number, ayah.numberInSurah;
      && bookmarks.IsBookmarked(s, a) == !old(bookmarks.IsBookmarked(s, a))
      && (old(bookmarks.IsBookmarked(s, a)) ==> bookmarks.bookmarks == Bookmarks.Without(old(bookmarks.bookmarks), s, a))
      && (!old(bookmarks.IsBookmarked(s, a)) ==> bookmarks.bookmarks == old(bookmarks.bookmarks) + [Bookmarks.BookmarkItem(s, a, now)])
    ensures bookmarks.lastRead == old(bookmarks.lastRead)
  {
    Bookmarks.ToggleBookmark(bookmarks, ayah.surah.value.number, ayah.numberInSurah, now);
  }

  // ---------------------------------------------------------------------
  // Text sizes
  // ---------------------------------------------------------------------

  /**
   * The text-size classes used, from smallest to largest. This order is
   * Tailwind's default font-size scale (0.75rem for `text-xs` up to
   * 1.875rem for `text-3xl`); the component itself does not state it.
   */
  function TextSizeRank(cls: string): (rank: Option<nat>)
    ensures rank.Some? ==> rank.value < 7
  {
    if cls == "text-xs" then Some(0)
    else if cls == "text-sm" then Some(1)
    else if cls == "text-base" then Some(2)
    else if cls == "text-lg" then Some(3)
    else if cls == "text-xl" then Some(4)
    else if cls == "text-2xl" then Some(5)
    else if cls == "text-3xl" then Some(6)
    else None
  }

  function SizeOrder(size: Settings.FontSize): nat {
    match size
    case Small => 0
    case Medium => 1
    case Large => 2
  }

  /** `arabicSizeClasses[arabicFontSize]`. */
  function ArabicSizeClass(size: Settings.FontSize): (cls: string)
    ensures TextSizeRank(cls).Some? && TextSizeRank(cls).value >= 3
  {
    match size
    case Small => "text-lg"
    case Medium => "text-2xl"
    case Large => "text-3xl"
  }

  /** `translationSizeClasses[translationFontSize]`. */
  function TranslationSizeClass(size: Settings.FontSize): (cls: string)
    ensures TextSizeRank(cls).Some? && TextSizeRank(cls).value <= 2
  {
    match size
    case Small => "text-xs"
    case Medium => "text-sm"
    case Large => "text-base"
  }

  /**
   * Both maps give a known class for every setting, a larger setting gives
   * a strictly larger class, and the Arabic text is always larger than a
   * translation at any setting.
   */
  lemma SizeClassesOrdered(s1: Settings.FontSize, s2: Settings.FontSize)
    ensures TextSizeRank(ArabicSizeClass(s1)).Some? && TextSizeRank(TranslationSizeClass(s1)).Some?
    ensures SizeOrder(s1) < SizeOrder(s2) ==>
      TextSizeRank(ArabicSizeClass(s1)).value < TextSizeRank(ArabicSizeClass(s2)).value
    ensures SizeOrder(s1) < SizeOrder(s2) ==>
      TextSizeRank(TranslationSizeClass(s1)).value < TextSizeRank(TranslationSizeClass(s2)).value
    ensures TextSizeRank(TranslationSizeClass(s1)).value < TextSizeRank(ArabicSizeClass(s2)).value
  {
  }

  /** Different settings give different classes: the choice can be read back from the class. */
  lemma SizeClassesInjective(s1: Settings.FontSize, s2: Settings.FontSize)
    ensures ArabicSizeClass(s1) == ArabicSizeClass(s2) ==> s1 == s2
    ensures TranslationSizeClass(s1) == TranslationSizeClass(s2) ==> s1 == s2
  {
  }
}

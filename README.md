# al-quran: a verified model of the player, the stores and the page logic

This project models the core of the al-quran reading app in Dafny.

- **Playback store (`Audio`).** The store keeps one audio element at a time. It tracks the position being recited (chapter, verse), the loading and playing flags, and the stored volume. It also holds the rules for moving to the next and previous verse.
- **Content service (`QuranApi`).** This module has the 115-entry verse-count table and the absolute verse index computed from it. It builds the recitation URLs and back-fills the chapter record into fetched verses.
- **Bookmark store (`Bookmarks`).** Bookmarks have no duplicate verses. The store also keeps the last-read position.
- **Settings store (`Settings`).**
- **Component logic.** Each of these is a module:
  - `FooterPlayer`: the footer player's decisions.
  - `DailyVerse`: the verse-of-the-day selection.
  - `SurahListPage`: the chapter search filter.
  - `BookmarkList`: the chapter map, the newest-first ordering and the cards.
  - `AyahView`: the verse view's play/pause and bookmark dispatch and its size classes.

Each file holds one module and follows one source file. The component modules take the component's name; the stores are named after what they hold (`Audio` for audioStore, `Bookmarks` for bookmarkStore, `Settings` for settingsStore), and the content service is `QuranApi`.

| source file | Dafny file |
|---|---|
| src/services/quranAPI.ts | quran_api.dfy |
| src/store/audioStore.ts | audio_store.dfy |
| src/store/bookmarkStore.ts | bookmark_store.dfy |
| src/store/settingsStore.ts | settings_store.dfy |
| src/components/FooterPlayer.tsx | footer_player.dfy |
| src/components/DailyVerse.tsx | daily_verse.dfy |
| src/pages/SurahListPage.tsx | surah_list_page.dfy |
| src/components/BookmarkList.tsx | bookmark_list.dfy |
| src/components/AyahView.tsx | ayah_view.dfy |

`wrappers.dfy` holds the `Option` and `Result` types.

**How the stores are modelled.** The stores are classes whose methods overwrite their fields, as the zustand `set` calls do.
- The audio element is a class of its own (`AudioElement`). The store pauses it, rewinds it and sets its volume in place.
- Each asynchronous action is one atomic step.
- Answers from the outside world are parameters:
  - whether the browser's `play()` resolves;
  - a chapter's verse count from the content service (`None` when the request fails);
  - `Date.now()`;
  - the day of the year.
- `Valid()` states what every store action keeps. For the playback store:
  - the volume lies in [0, 1];
  - chapter and verse are set together, and both are positive;
  - "playing" implies an element exists;
  - the element plays at the stored volume.

  For the bookmark store, no verse is bookmarked twice.

**JavaScript semantics, written out.**
- `NaN` is `None`. The absolute verse number of a chapter above 115 reads past the table and becomes NaN. So does `dayOfYear % 0`.
- `%` takes the sign of the dividend.
- `!x` on a number is true only for 0 (and NaN).
- `trim()` removes the ECMAScript white-space set.
- `${n}` renders decimal digits.

## Model

| member | source | states |
|---|---|---|
| QuranApi.AyahCountIsTable | src/services/quranAPI.ts:50-55 | the lookup used throughout the model returns entry i of `AYAH_COUNTS` |
| QuranApi.AyahCountsShape | src/services/quranAPI.ts:49-55 | entry 0 is 0 and unused; every chapter 1..114 has a positive verse count |
| QuranApi.AbsoluteAyahNumber | src/services/quranAPI.ts:58-67 | the accumulating loop returns the verse number plus the counts of all earlier chapters; NaN (None) once it reads past the table |
| QuranApi.AbsoluteIndexOfFirstSurah | src/services/quranAPI.ts:58-67 | in chapter 1 the absolute number is the verse number |
| QuranApi.AbsoluteIndexExample | src/services/quranAPI.ts:58-67 | chapter 2 verse 1 is verse 8 overall |
| QuranApi.ChapterBoundaryContinuity | src/services/quranAPI.ts:58-67 | the last verse of chapter s, plus one, is the first verse of chapter s+1 (1 <= s < 114) |
| QuranApi.AbsoluteIndexIncreasing | src/services/quranAPI.ts:59-63 | within a chapter the absolute number strictly increases with the verse number |
| QuranApi.AyahsBeforeMonotone | src/services/quranAPI.ts:62-64 | the sum of the counts before a chapter never decreases with the chapter number |
| QuranApi.AbsoluteIndex | src/services/quranAPI.ts:58-67 | NaN (None) exactly for a chapter past the table; otherwise at least the verse number, and equal to it in chapter 1 |
| QuranApi.AbsoluteIndexWithinChapter | src/services/quranAPI.ts:58-67 | a valid verse of chapter s lies after all verses of earlier chapters and no later than the last verse of s |
| QuranApi.AbsoluteIndexInjective | src/services/quranAPI.ts:58-67 | distinct valid verses have distinct absolute numbers |
| QuranApi.NatToStringRoundTrip | src/services/quranAPI.ts:129 | the decimal text interpolated into the URL reads back to the number |
| QuranApi.IntToString | src/services/quranAPI.ts:129 | a non-negative number is written as digits that read back to it; a negative one as `-` and the digits of its magnitude |
| QuranApi.AyahAudioUrlExample | src/services/quranAPI.ts:123-130 | concrete URLs, including the default reciter `ar.alafasy` |
| QuranApi.AyahAudioUrl | src/services/quranAPI.ts:123-130 | the verse URL starts with the CDN prefix, the reciter and `/`, and ends in `.mp3`, with a file name between |
| QuranApi.SurahAudioUrl | src/services/quranAPI.ts:133-135 | the chapter URL starts with the chapter-audio prefix, the reciter and `/`, and ends in `.mp3`, with a file name between |
| QuranApi.AyahAudioUrlDecodes | src/services/quranAPI.ts:123-130 | a verse URL is the fixed CDN prefix, the reciter, `/`, the decimal absolute number, `.mp3` |
| QuranApi.AyahAudioUrlInjective | src/services/quranAPI.ts:123-130 | with one reciter, two valid verses share a URL only if they are the same verse |
| QuranApi.SurahAudioUrlDecodes | src/services/quranAPI.ts:133-135 | a chapter URL is the chapter-audio prefix, the reciter, `/`, the decimal chapter number, `.mp3` |
| QuranApi.FillSurah | src/services/quranAPI.ts:92-100 | after back-fill a verse has a chapter record: its own if it had one, else the chapter's; nothing else changes |
| QuranApi.FillSurahIdempotent | src/services/quranAPI.ts:90-101 | back-filling an already filled verse changes nothing |
| QuranApi.BackfillSurah | src/services/quranAPI.ts:90-101 | the in-place loop leaves every verse back-filled from the chapter; a missing verse list is left alone |
| Audio.AudioElement.constructor | src/store/audioStore.ts:98 | a new element holds the URL and is paused at time 0 |
| Audio.AudioElement.Pause | src/store/audioStore.ts:150 | pausing changes nothing but `paused` |
| Audio.AudioElement.Start | src/store/audioStore.ts:121 | a resolved `play()` leaves the element playing; a rejected one leaves it as it was |
| Audio.CleanupAudio | src/store/audioStore.ts:38-49 | an existing element is paused and loses its source; without one nothing happens |
| Audio.Clamp | src/store/audioStore.ts:179 | the stored volume is in [0, 1], equals v inside that range, and is 0 below it and 1 above it |
| Audio.ClampIdempotent | src/store/audioStore.ts:176-188 | clamping a clamped volume changes nothing |
| Audio.Playable | src/store/audioStore.ts:69-73 | the guard of `play` passes iff both numbers are at least 1 |
| Audio.NextMove | src/store/audioStore.ts:209-224 | for any verse-count answer: the next verse while the verse is below the count; verse 1 of the next chapter at or past the count below chapter 114; stops iff the lookup fails or the last chapter is finished; never stays at the start |
| Audio.PreviousMove | src/store/audioStore.ts:262-285 | for any verse-count answer: one verse back whenever the verse is above 1; at verse 1 of a later chapter, the looked-up last verse of the previous chapter, or a stop iff that lookup fails; stays iff at verse 1 of chapter 1 (or below) |
| Audio.NextNeverWrapsToStart | src/store/audioStore.ts:213-224 | whatever the verse-count lookup answers, "next" never goes to (1, 1) |
| Audio.NextMoveFollowsAbsoluteOrder | src/store/audioStore.ts:209-224 | against the static table, "next" goes to the verse numbered one higher overall, and stops exactly at the last verse of chapter 114 |
| Audio.PreviousMoveFollowsAbsoluteOrder | src/store/audioStore.ts:262-285 | against the static table, "previous" goes to the verse numbered one lower overall, never fails, and stays put exactly at (1, 1) |
| Audio.PreviousUndoesNext | src/store/audioStore.ts:193-291 | "previous" after "next" returns to the starting verse |
| Audio.NextUndoesPrevious | src/store/audioStore.ts:193-291 | "next" after "previous" returns to the starting verse |
| Audio.MoveExamples | src/store/audioStore.ts:193-291 | (2,286) goes on to (3,1), (114,6) stops, (5,1) goes back to (4,176), and (1,1) stays |
| Audio.AudioState.constructor | src/store/audioStore.ts:54-59 | the initial store is idle with volume 0.75 and satisfies the store invariant |
| Audio.AudioState.BeginPlay | src/store/audioStore.ts:69-88 | a non-positive or zero position only clears `isLoading`; otherwise the old element is cleaned up and the store is loading at the new position with no element |
| Audio.AudioState.FinishPlay | src/store/audioStore.ts:92-141 | the new element plays the verse's URL at the stored volume if `play()` resolves; otherwise the store has no element and is not playing; the position stays recorded either way |
| Audio.AudioState.Play | src/store/audioStore.ts:67-142 | `play` as a whole: guard, clean-up, and the success and failure outcomes, with the invariant kept |
| Audio.AudioState.Pause | src/store/audioStore.ts:147-154 | pauses only a playing element; otherwise no change |
| Audio.AudioState.Stop | src/store/audioStore.ts:159-170 | the store ends idle with its volume kept; stopping an idle store changes nothing |
| Audio.AudioState.SetVolume | src/store/audioStore.ts:176-188 | stores the clamped volume and applies it to the element if there is one; nothing else changes |
| Audio.AudioState.OnEnded | src/store/audioStore.ts:108-113 | the element has reached its end and is paused; the handler then clears `isPlaying` and nothing else in the store |
| Audio.AudioState.OnError | src/store/audioStore.ts:115-118 | the error handler drops the element and clears both flags, and keeps the position |
| Audio.AudioState.PlayNext | src/store/audioStore.ts:193-230 | with no position the store stops; otherwise it plays the target NextMove picks or ends idle |
| Audio.AudioState.Restart | src/store/audioStore.ts:248-257 | rewinds to 0; a paused element is restarted and the store marked playing even if `play()` rejected |
| Audio.AudioState.ShouldRestart | src/store/audioStore.ts:248 | the restart branch needs an element that is not seeking; a rewound element (time 0) never takes it |
| Audio.AudioState.SettledIsNotRestarted | src/store/audioStore.ts:121-141 | right after `play` settles, "previous" does not restart the verse |
| Audio.AudioState.PlayPrevious | src/store/audioStore.ts:236-291 | no position: no change; played over 3 s and not seeking: restart in place; otherwise the PreviousMove target is played, a failed lookup stops, and at (1,1) the element is rewound and loading cleared |
| Bookmarks.AnyAt | src/store/bookmarkStore.ts:53-59 | true iff some bookmark is at (surah, ayah) |
| Bookmarks.Without | src/store/bookmarkStore.ts:43-51 | keeps exactly the bookmarks not at (surah, ayah) |
| Bookmarks.WithoutAppend | src/store/bookmarkStore.ts:45-49 | the filter distributes over concatenation, so kept bookmarks stay in their order |
| Bookmarks.WithoutNoMatch | src/store/bookmarkStore.ts:45-49 | removing a verse that is not bookmarked leaves the list as it is |
| Bookmarks.WithoutIdempotent | src/store/bookmarkStore.ts:43-51 | removing twice is removing once |
| Bookmarks.WithoutKeepsDistinct | src/store/bookmarkStore.ts:43-51 | removing keeps the list free of duplicate verses |
| Bookmarks.AppendKeepsDistinct | src/store/bookmarkStore.ts:30-41 | appending a verse that is not yet bookmarked keeps the list free of duplicates |
| Bookmarks.RemoveUndoesAdd | src/store/bookmarkStore.ts:30-51 | adding a new verse and then removing it restores the list |
| Bookmarks.BookmarkStore.constructor | src/store/bookmarkStore.ts:27-28 | no bookmarks and no last-read position |
| Bookmarks.BookmarkStore.IsBookmarked | src/store/bookmarkStore.ts:53-59 | true iff a stored bookmark is at the verse |
| Bookmarks.BookmarkStore.AddBookmark | src/store/bookmarkStore.ts:30-41 | appends the verse stamped `now` unless already bookmarked; afterwards it is bookmarked; no duplicates |
| Bookmarks.BookmarkStore.RemoveBookmark | src/store/bookmarkStore.ts:43-51 | the list becomes the order-keeping filter; afterwards the verse is not bookmarked |
| Bookmarks.BookmarkStore.SetLastRead | src/store/bookmarkStore.ts:61-69 | replaces the last-read position, stamped `now`; bookmarks untouched |
| Bookmarks.ToggleBookmark | src/components/AyahView.tsx:44-58 | the shared bookmark button: flips whether the verse is bookmarked, by the filter or by an append |
| Settings.Flipped | src/store/settingsStore.ts:30-32 | the toggled theme differs from the old one |
| Settings.FlippedInvolution | src/store/settingsStore.ts:30-32 | toggling the theme twice restores it |
| Settings.SettingsStore.constructor | src/store/settingsStore.ts:23-28 | defaults: dark, medium and medium fonts, translation shown, `en.asad`, `ar.alafasy` |
| Settings.SettingsStore.ToggleTheme | src/store/settingsStore.ts:30-32 | swaps dark and light; nothing else changes |
| Settings.SettingsStore.SetArabicFontSize | src/store/settingsStore.ts:34 | sets only the Arabic font size |
| Settings.SettingsStore.SetTranslationFontSize | src/store/settingsStore.ts:36 | sets only the translation font size |
| Settings.SettingsStore.ToggleTranslation | src/store/settingsStore.ts:38-40 | negates only `showTranslation` |
| Settings.SettingsStore.SetTranslationLanguage | src/store/settingsStore.ts:42 | sets only the translation edition |
| Settings.SettingsStore.SetReciter | src/store/settingsStore.ts:44 | sets only the reciter |
| Settings.SettingsStore.ToggleThemeTwice | src/store/settingsStore.ts:30-32 | two theme toggles leave every setting as it was |
| Settings.SettingsStore.ToggleTranslationTwice | src/store/settingsStore.ts:38-40 | two translation toggles leave every setting as it was |
| FooterPlayer.ShowsPlayerForValidStore | src/components/FooterPlayer.tsx:30-32 | in any reachable store state the player renders exactly when a position is set |
| FooterPlayer.ShowsPlayer | src/components/FooterPlayer.tsx:30-32 | the player is shown only with both parts of the position set and non-zero |
| FooterPlayer.VolumeIconFor | src/components/FooterPlayer.tsx:35 | muted icon iff volume is 0, low iff 0 < volume <= 0.5 (for a non-zero volume), high iff above 0.5 |
| FooterPlayer.VolumeIconMonotone | src/components/FooterPlayer.tsx:35 | over [0, 1] the icon never gets quieter as the volume rises |
| FooterPlayer.MuteTarget | src/components/FooterPlayer.tsx:48-52 | an audible volume mutes to 0, any other unmutes to 0.75, and the target is already in range |
| FooterPlayer.MuteUnmuteGivesDefault | src/components/FooterPlayer.tsx:44-53 | muting and then unmuting lands on 0.75 whatever the level before |
| FooterPlayer.MuteUnmuteLosesLevel | src/components/FooterPlayer.tsx:44-53 | a level of 0.3 is not restored by mute then unmute |
| FooterPlayer.ToggleMute | src/components/FooterPlayer.tsx:44-53 | the store's volume, and the element's, becomes the mute target; nothing else changes |
| FooterPlayer.HandleVolumeChange | src/components/FooterPlayer.tsx:38-41 | the slider's first value is clamped and stored; nothing else changes |
| FooterPlayer.SyncLastRead | src/components/FooterPlayer.tsx:24-28 | with both parts of the position set (truthy), it becomes the last-read position; otherwise nothing changes |
| FooterPlayer.ButtonsEnabledOnceSettled | src/components/FooterPlayer.tsx:86-95 | once a `play` has settled, resolved or not, the buttons are enabled again |
| FooterPlayer.PressMainButton | src/components/FooterPlayer.tsx:94-95 | on an enabled, shown player: pause when playing; otherwise play the current position |
| DailyVerse.DailySurahNumber | src/components/DailyVerse.tsx:35 | the chapter of the day lies in 1..114 |
| DailyVerse.DailySurahRepeatsYearly | src/components/DailyVerse.tsx:27-35 | the chapter depends on the day only, with period 114 |
| DailyVerse.JsRemainder | src/components/DailyVerse.tsx:45 | NaN iff the divisor is 0; otherwise a remainder below the divisor's magnitude with dayOfYear = q * n + r |
| DailyVerse.SelectDailyVerse | src/components/DailyVerse.tsx:40-61 | fails for a missing chapter or an empty verse list; succeeds exactly when day mod the record's verse count is defined and indexes the list, and then picks that verse, back-filled with its chapter |
| DailyVerse.SelectDailyVerseSucceeds | src/components/DailyVerse.tsx:45-46 | when the record's verse count matches the list, every day selects the verse at day mod count |
| DailyVerse.PickTranslation | src/components/DailyVerse.tsx:65 | a translation is shown iff the list exists and is longer than the index, and it comes from the list |
| DailyVerse.PickTranslationPosition | src/components/DailyVerse.tsx:65 | the translation shown is the one at the verse's index |
| DailyVerse.DailyVerseFromChapterOfDay | src/components/DailyVerse.tsx:35-61 | when the service answers with the chapter asked for, the verse of the day belongs to chapter (day mod 114) + 1 |
| DailyVerse.DailyVerseCard.constructor | src/components/DailyVerse.tsx:13-15 | nothing shown, loading |
| DailyVerse.DailyVerseCard.FetchDailyVerse | src/components/DailyVerse.tsx:23-78 | asks for chapter (day mod 114) + 1 and its translation in the configured edition; succeeds exactly when the selection succeeds and the translation request does not throw; success shows the verse selected from that chapter and the translation at the verse's index; any failure keeps what was shown; loading ends either way |
| DailyVerse.DailyVerseCard.HandleBookmarkToggle | src/components/DailyVerse.tsx:84-103 | flips whether the shown verse is bookmarked: a bookmarked verse is filtered out, any other appended stamped `now`; a no-op without a verse that has its chapter |
| DailyVerse.DailyVerseCard.HandlePlay | src/components/DailyVerse.tsx:105-110 | plays the shown verse at the stored volume, which stays unchanged; a no-op without a verse that has its chapter |
| SurahListPage.TrimStart | src/pages/SurahListPage.tsx:47 | drops exactly the leading white space: the result is a suffix, everything dropped is white space, and it starts with a non-white character or is empty |
| SurahListPage.TrimEnd | src/pages/SurahListPage.tsx:47 | drops exactly the trailing white space: the result is a prefix, everything dropped is white space, and it ends with a non-white character or is empty |
| SurahListPage.Trim | src/pages/SurahListPage.tsx:47 | the trimmed query is a contiguous piece of the query, everything outside it is white space, and it has white space at neither end |
| SurahListPage.TrimEmptyIffAllWhitespace | src/pages/SurahListPage.tsx:47-50 | a query trims to "" iff every character is white space |
| SurahListPage.LowerChar | src/pages/SurahListPage.tsx:52 | ASCII capitals map to their lower-case letter; everything else is unchanged |
| SurahListPage.ToLower | src/pages/SurahListPage.tsx:52 | lower-cases character by character and keeps the length |
| SurahListPage.ToLowerIdempotent | src/pages/SurahListPage.tsx:52 | lower-casing twice is lower-casing once |
| SurahListPage.IncludesEmptyAndSelf | src/pages/SurahListPage.tsx:55-57 | every text includes "" and itself |
| SurahListPage.Includes | src/pages/SurahListPage.tsx:55-57 | a text includes only needles no longer than itself |
| SurahListPage.MatchesQuery | src/pages/SurahListPage.tsx:53-58 | the empty query matches every chapter |
| SurahListPage.Filter | src/pages/SurahListPage.tsx:53-58 | keeps exactly the chapters whose lower-cased English name, name translation, or decimal number contains the query |
| SurahListPage.FilterIsSubsequence | src/pages/SurahListPage.tsx:53-58 | the filter keeps the chapters in their original order |
| SurahListPage.FilterKeepsMultiplicity | src/pages/SurahListPage.tsx:53-58 | each matching chapter is kept as often as it is listed, every other chapter not at all |
| SurahListPage.FilterSurahs | src/pages/SurahListPage.tsx:46-61 | a blank query gives the whole list; otherwise the kept chapters are those matching the lower-cased, untrimmed query |
| SurahListPage.FilterSurahsKeepsOrder | src/pages/SurahListPage.tsx:46-61 | the shown list is always an order-preserving subsequence of the fetched one |
| SurahListPage.NumberQueryExample | src/pages/SurahListPage.tsx:57 | "1" finds chapter 1 through its number |
| SurahListPage.BlankQueryExample | src/pages/SurahListPage.tsx:47-50 | a query of spaces keeps the whole list |
| SurahListPage.SpacedQueryExample | src/pages/SurahListPage.tsx:47-58 | " 1" is not blank and, matched untrimmed, finds nothing |
| SurahListPage.Initial | src/pages/SurahListPage.tsx:11-13 | the initial page state is consistent (shown = filter of fetched) |
| SurahListPage.Loaded | src/pages/SurahListPage.tsx:21-23 | a load sets both the fetched and the shown list to the data and keeps the query |
| SurahListPage.Refiltered | src/pages/SurahListPage.tsx:46-61 | the effect makes the shown list the filter of the fetched one by the query, and changes nothing else |
| SurahListPage.LoadWithEmptyQueryConsistent | src/pages/SurahListPage.tsx:21-23 | after loading with the initial empty query, the shown list equals the fetched list and the effect changes nothing |
| BookmarkList.SurahMapOfKey | src/components/BookmarkList.tsx:22-26 | the map has a key for exactly the chapter numbers in the fetched list |
| BookmarkList.SurahMapOfValue | src/components/BookmarkList.tsx:22-26 | each number maps to the last chapter in the list carrying it (later entries overwrite earlier ones) |
| BookmarkList.SurahMapOf | src/components/BookmarkList.tsx:22-26 | every chapter in the map is stored under its own number |
| BookmarkList.BuildSurahMap | src/components/BookmarkList.tsx:22-26 | the `forEach` builds the map SurahMapOf describes |
| BookmarkList.InsertByRecency | src/components/BookmarkList.tsx:80 | inserting into a newest-first list keeps it newest first and adds exactly one item |
| BookmarkList.SortByRecency | src/components/BookmarkList.tsx:80 | the sorted copy is a permutation of the bookmarks with non-increasing time stamps |
| BookmarkList.SortByRecencyKeepsSorted | src/components/BookmarkList.tsx:80 | a list that is already newest first is left as it is |
| BookmarkList.CardsFor | src/components/BookmarkList.tsx:84-86 | each bookmark with a known chapter gets as many cards as it has entries, carrying that chapter; a bookmark with an unknown chapter gets none |
| BookmarkList.CardsForNewestFirst | src/components/BookmarkList.tsx:80-86 | skipping keeps the cards newest first |
| BookmarkList.BookmarkView | src/components/BookmarkList.tsx:68-86 | empty state iff there are no bookmarks; otherwise newest-first cards, one for each bookmark whose chapter is known, none for the others |
| AyahView.RenderedPosition | src/components/AyahView.tsx:23-26 | the view renders iff the verse and its chapter record are present, at (chapter number, verse number) |
| AyahView.IsCurrentlyPlaying | src/components/AyahView.tsx:28-31 | a verse is highlighted only while the store plays and has a position |
| AyahView.AtMostOneVersePlaying | src/components/AyahView.tsx:28-31 | two verses highlighted as playing are at the same position |
| AyahView.PlayingVerseHasAudio | src/components/AyahView.tsx:28-31 | in a reachable store state a verse shown as playing has an element behind it and a playable position |
| AyahView.HandlePlayPause | src/components/AyahView.tsx:35-42 | the verse that is playing is paused; any other verse is played by the store |
| AyahView.HandleBookmarkToggle | src/components/AyahView.tsx:44-58 | flips whether the verse is bookmarked: a bookmarked verse is removed, any other appended |
| AyahView.SizeClassesOrdered | src/components/AyahView.tsx:60-70 | both maps are total; a larger setting gives a larger class; Arabic text is always larger than translation text |
| AyahView.SizeClassesInjective | src/components/AyahView.tsx:60-70 | different settings give different classes |
| AyahView.ArabicSizeClass | src/components/AyahView.tsx:60-64 | the Arabic text class is one of the known sizes, `text-lg` or larger |
| AyahView.TranslationSizeClass | src/components/AyahView.tsx:66-70 | the translation class is one of the known sizes, `text-base` or smaller |

## Left out

- HTML audio internals: buffering, decoding and `oncanplaythrough` are not modelled. Neither are the `removeAttribute`/`load` side effects of `cleanupAudio`, beyond dropping the source. The element is reduced to source, volume, time, seeking and paused.
- Network requests are not modelled. Their answers are parameters: a chapter's verse count, the chapter response, the translation list and the chapter list. Failures are `None` or `Err`.
- Concurrency is not modelled. Each asynchronous action is one atomic step, so overlapping `play` calls are not covered. The code has no guard against stale requests.
- Audio.AudioState.OnEnded: the 300 ms timer it starts is not time here. The automatic advance is the separate step `PlayNext`. The element's `currentTime` is not moved to its duration at the end.
- The element's own progress (`currentTime` advancing, `seeking`) is browser behaviour, not store code: no step here advances it, so the restart branch of `playPrevious` applies to any element state the browser may have reached.
- AyahView.TextSizeRank: the order of the size classes is Tailwind's default scale, not something the components state; SizeClassesOrdered and the size-class contracts hold with respect to that scale.
- Audio.AudioState.Play: it does not check the verse against the chapter's verse count, as in the source. Only the zero/sign guard applies.
- Audio.AudioState.Restart: the store is marked playing even when the element's `play()` rejected, as in the source.
- Audio.AudioState.OnError: the handler keeps the position, as in the source.
- `scrollIntoView`, toasts, console logging and all rendering are not modelled. The `DOMException` name test in the catch of `play` only logs.
- Persistence (zustand `persist`/localStorage) and the `create`/`set`/`get` plumbing are left out. The state is plain fields.
- Floating point is left out. The volume is a `real`, so NaN or infinite slider values are not modelled. A verse count is an integer, so an undefined or fractional `numberOfAyahs` is not modelled.
- DailyVerse.DailyVerseCard.FetchDailyVerse: the day of the year is taken as a natural number. Its millisecond derivation from the wall clock is not modelled.
- DailyVerse.DailyVerseCard.FetchDailyVerse: the in-place back-fill of the chosen verse's `surah` is modelled as the value `FillSurah` returns, not as a mutation of the response object.
- FooterPlayer.HandleVolumeChange: requires a non-empty slider value. `value[0]` of an empty array (undefined, then NaN) is not modelled.
- SurahListPage.LowerChar: lower-cases ASCII letters only. Unicode case mapping is not modelled.
- QuranApi.IntToString: writes every integer in plain decimal. The exponent notation JavaScript uses for very large numbers is not modelled.
- BookmarkList.SortByRecency: states order and permutation but not stability. Equal time stamps keep their original order in the definition, but no lemma states it.
- The sort works on a copy, so the store's list is untouched. This holds because the model's sort is a function on a value.
- Integer widths are not modelled: all numbers are unbounded integers. Time stamps and verse numbers in the app are far below 2^53.
- src/components/SearchResults.tsx and src/pages/SurahPage.tsx are not part of this model. The search repeats the chapter filter, and the page repeats the verse back-fill.
- Routing, layout and settings-form files are not part of this model. These are App, Index, HomePage, the Bookmarks/Settings/Search pages, Header, NavigationMenu, SurahItem, SettingsForm, ResumeReading and ThemeToggle.

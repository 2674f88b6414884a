/**
 * The verse-recitation playback store: one audio element at a time, the
 * position (chapter, verse) it recites, the loading and playing flags, and
 * the stored volume. The store's actions run here as single atomic steps;
 * what the browser decides (whether `play()` resolves) and what the
 * content service answers (a chapter's verse count) are parameters.
 */
module Audio {
  import opened Wrappers
  import QuranApi

  /** `DEFAULT_VOLUME`: the volume a fresh store starts with. */
  const DefaultVolume: real := 0.75

  /** Seconds a verse must have played before "previous" restarts it instead. */
  const RestartAfter: real := 3.0

  // ---------------------------------------------------------------------
  // The audio element
  // ---------------------------------------------------------------------

  /** The observable fields of an audio element. */
  datatype Handle = Handle(src: Option<string>, volume: real, currentTime: real, seeking: bool, paused: bool)

  /** The browser's audio element, reduced to the fields the store reads and writes. */
  class AudioElement {
    var src: Option<string>
    var volume: real
    var currentTime: real
    var seeking: bool
    var paused: bool

    function View(): Handle
      reads this
    {
      Handle(src, volume, currentTime, seeking, paused)
    }

    /** `new Audio(url)`: loaded with the URL, paused at time 0, at full volume. */
    constructor (url: string)
      ensures View() == Handle(Some(url), 1.0, 0.0, false, true)
    {
      src := Some(url);
      volume := 1.0;
      currentTime := 0.0;
      seeking := false;
      paused := true;
    }

    /** `pause()`. */
    method Pause()
      modifies this
      ensures View() == old(View()).(paused := true)
    {
      paused := true;
    }

    /**
     * `play()`: when the returned promise resolves the element is playing;
     * when it rejects the element stays as it was.
     */
    method Start(resolves: bool)
      modifies this
      ensures View() == old(View()).(paused := old(paused) && !resolves)
    {
      if resolves {
        paused := false;
      }
    }
  }

  /** `cleanupAudio`: pause the element and drop its source; without an element nothing happens. */
  method CleanupAudio(audio: AudioElement?)
    modifies audio
    ensures audio != null ==> audio.View() == old(audio.View()).(paused := true, src := None)
  {
    if audio != null {
      audio.Pause();
      audio.src := None;
    }
  }

  // ---------------------------------------------------------------------
  // Pure decisions
  // ---------------------------------------------------------------------

  function Min(a: real, b: real): real { if a <= b then a else b }
  function Max(a: real, b: real): real { if a >= b then a else b }

  /** `Math.max(0, Math.min(1, v))`: the volume actually stored. */
  function Clamp(v: real): (r: real)
    ensures 0.0 <= r <= 1.0
    ensures 0.0 <= v <= 1.0 ==> r == v
    ensures v < 0.0 ==> r == 0.0
    ensures v > 1.0 ==> r == 1.0
  {
    Max(0.0, Min(1.0, v))
  }

  /** Clamping an already stored volume changes nothing. */
  lemma ClampIdempotent(v: real)
    ensures Clamp(Clamp(v)) == Clamp(v)
  {
  }

  /**
   * The guard of `play`: both numbers must be truthy and positive. For
   * integers, "truthy" only excludes 0, which the sign test excludes too.
   */
  function Playable(surah: int, ayah: int): (ok: bool)
    ensures ok <==> surah >= 1 && ayah >= 1
  {
    !(surah == 0 || ayah == 0 || surah <= 0 || ayah <= 0)
  }

  /** Where `playNext` / `playPrevious` go from the current position. */
  datatype Move = MoveTo(surah: int, ayah: int) | StopPlayback | StayAtStart

  /**
   * The branches of `playNext` once a position is set: the next verse of
   * the chapter, else verse 1 of the next chapter, else stop after the
   * last chapter; a failed verse-count lookup also stops.
   */
  function NextMove(surah: int, ayah: int, verseCount: int -> Option<int>): (m: Move)
    ensures !m.StayAtStart?
    ensures m.StopPlayback? <==> verseCount(surah).None? || (ayah >= verseCount(surah).value && surah >= QuranApi.LastSurah)
    ensures m.MoveTo? ==> m == MoveTo(surah, ayah + 1) || m == MoveTo(surah + 1, 1)
    ensures m.MoveTo? && m.surah == surah + 1 ==> surah < QuranApi.LastSurah
    ensures verseCount(surah).Some? && ayah < verseCount(surah).value ==> m == MoveTo(surah, ayah + 1)
    ensures verseCount(surah).Some? && ayah >= verseCount(surah).value && surah < QuranApi.LastSurah ==>
      m == MoveTo(surah + 1, 1)
  {
    match verseCount(surah)
    case None => StopPlayback
    case Some(n) =>
      if ayah < n then MoveTo(surah, ayah + 1)
      else if surah < QuranApi.LastSurah then MoveTo(surah + 1, 1)
      else StopPlayback
  }

  /**
   * The branches of `playPrevious` once a position is set and the current
   * verse is not restarted: the previous verse, else the last verse of the
   * previous chapter (looked up), else stay at the start.
   */
  function PreviousMove(surah: int, ayah: int, verseCount: int -> Option<int>): (m: Move)
    ensures m.StayAtStart? <==> ayah <= 1 && surah <= 1
    ensures m.StopPlayback? <==> ayah <= 1 && surah > 1 && verseCount(surah - 1).None?
    ensures m.MoveTo? ==> m == MoveTo(surah, ayah - 1) || (m.surah == surah - 1 && verseCount(surah - 1) == Some(m.ayah))
    ensures ayah > 1 ==> m == MoveTo(surah, ayah - 1)
    ensures ayah <= 1 && surah > 1 && verseCount(surah - 1).Some? ==> m == MoveTo(surah - 1, verseCount(surah - 1).value)
  {
    if ayah > 1 then MoveTo(surah, ayah - 1)
    else if surah > 1 then
      match verseCount(surah - 1)
      case None => StopPlayback
      case Some(n) => MoveTo(surah - 1, n)
    else StayAtStart
  }

  /** Whatever the lookup answers, "next" never wraps around to the first verse. */
  lemma NextNeverWrapsToStart(surah: int, ayah: int, verseCount: int -> Option<int>)
    requires surah >= 1 && ayah >= 1
    ensures NextMove(surah, ayah, verseCount) != MoveTo(1, 1)
    ensures !NextMove(surah, ayah, verseCount).StayAtStart?
  {
  }

  /**
   * Against the static verse-count table, "next" from a verse goes to the
   * verse whose absolute number is one higher, and stops exactly at the
   * last verse of the last chapter.
   */
  lemma NextMoveFollowsAbsoluteOrder(surah: int, ayah: int)
    requires QuranApi.ValidPosition(surah, ayah)
    ensures var m := NextMove(surah, ayah, QuranApi.StaticVerseCount);
            && !m.StayAtStart?
            && (m.StopPlayback? <==> surah == QuranApi.LastSurah && ayah == QuranApi.AyahCount(QuranApi.LastSurah))
            && (m.MoveTo? ==> QuranApi.ValidPosition(m.surah, m.ayah)
                              && QuranApi.AbsoluteIndex(m.surah, m.ayah).value == QuranApi.AbsoluteIndex(surah, ayah).value + 1)
  {
    if ayah == QuranApi.AyahCount(surah) && surah < QuranApi.LastSurah {
      QuranApi.ChapterBoundaryContinuity(surah);
      QuranApi.AyahCountsShape();
    }
  }

  /**
   * Against the static table, "previous" goes to the verse whose absolute
   * number is one lower, never fails, and stays put exactly at (1, 1).
   */
  lemma PreviousMoveFollowsAbsoluteOrder(surah: int, ayah: int)
    requires QuranApi.ValidPosition(surah, ayah)
    ensures var m := PreviousMove(surah, ayah, QuranApi.StaticVerseCount);
            && !m.StopPlayback?
            && (m.StayAtStart? <==> surah == 1 && ayah == 1)
            && (m.MoveTo? ==> QuranApi.ValidPosition(m.surah, m.ayah)
                              && QuranApi.AbsoluteIndex(m.surah, m.ayah).value + 1 == QuranApi.AbsoluteIndex(surah, ayah).value)
  {
    if ayah == 1 && surah > 1 {
      QuranApi.ChapterBoundaryContinuity(surah - 1);
      QuranApi.AyahCountsShape();
    }
  }

  /** "Previous" undoes "next". */
  lemma PreviousUndoesNext(surah: int, ayah: int)
    requires QuranApi.ValidPosition(surah, ayah)
    requires NextMove(surah, ayah, QuranApi.StaticVerseCount).MoveTo?
    ensures var m := NextMove(surah, ayah, QuranApi.StaticVerseCount);
            PreviousMove(m.surah, m.ayah, QuranApi.StaticVerseCount) == MoveTo(surah, ayah)
  {
    var m := NextMove(surah, ayah, QuranApi.StaticVerseCount);
    NextMoveFollowsAbsoluteOrder(surah, ayah);
    PreviousMoveFollowsAbsoluteOrder(m.surah, m.ayah);
    var p := PreviousMove(m.surah, m.ayah, QuranApi.StaticVerseCount);
    QuranApi.AbsoluteIndexInjective(p.surah, p.ayah, surah, ayah);
  }

  /** "Next" undoes "previous". */
  lemma NextUndoesPrevious(surah: int, ayah: int)
    requires QuranApi.ValidPosition(surah, ayah)
    requires PreviousMove(surah, ayah, QuranApi.StaticVerseCount).MoveTo?
    ensures var m := PreviousMove(surah, ayah, QuranApi.StaticVerseCount);
            NextMove(m.surah, m.ayah, QuranApi.StaticVerseCount) == MoveTo(surah, ayah)
  {
    var m := PreviousMove(surah, ayah, QuranApi.StaticVerseCount);
    PreviousMoveFollowsAbsoluteOrder(surah, ayah);
    NextMoveFollowsAbsoluteOrder(m.surah, m.ayah);
    var n := NextMove(m.surah, m.ayah, QuranApi.StaticVerseCount);
    QuranApi.AbsoluteIndexInjective(n.surah, n.ayah, surah, ayah);
  }

  /** Chapter boundaries in both directions, on concrete verses. */
  lemma MoveExamples()
    ensures NextMove(2, 286, QuranApi.StaticVerseCount) == MoveTo(3, 1)
    ensures NextMove(114, 6, QuranApi.StaticVerseCount) == StopPlayback
    ensures PreviousMove(5, 1, QuranApi.StaticVerseCount) == MoveTo(4, 176)
    ensures PreviousMove(1, 1, QuranApi.StaticVerseCount) == StayAtStart
  {
    QuranApi.AyahCountIsTable(2);
    QuranApi.AyahCountIsTable(4);
    QuranApi.AyahCountIsTable(114);
  }

  // ---------------------------------------------------------------------
  // The store
  // ---------------------------------------------------------------------

  /** The store's fields at one moment. */
  datatype Snapshot = Snapshot(
    audio: AudioElement?,
    isPlaying: bool,
    isLoading: bool,
    currentSurah: Option<int>,
    currentAyah: Option<int>,
    volume: real)

  /** `useAudioStore`. */
  class AudioState {
    var audio: AudioElement?
    var isPlaying: bool
    var isLoading: bool
    var currentSurah: Option<int>
    var currentAyah: Option<int>
    var volume: real

    function State(): Snapshot
      reads this
    {
      Snapshot(audio, isPlaying, isLoading, currentSurah, currentAyah, volume)
    }

    /**
     * What every action keeps: the volume is in [0, 1]; chapter and verse
     * are set together and are positive; "playing" needs an element; an
     * element plays at the stored volume and only with a position set.
     */
    ghost predicate Valid()
      reads this, audio
    {
      && 0.0 <= volume <= 1.0
      && currentSurah.Some? == currentAyah.Some?
      && (currentSurah.Some? ==> Playable(currentSurah.value, currentAyah.value))
      && (isPlaying ==> audio != null)
      && (audio != null ==> audio.volume == volume && currentSurah.Some?)
    }

    /** Nothing loaded, nothing playing, no position. */
    predicate Idle()
      reads this
    {
      audio == null && !isPlaying && !isLoading && currentSurah.None? && currentAyah.None?
    }

    /** Where a valid `play(surah, ayah)` ends, for a `play()` that resolved or not. */
    predicate Settled(surah: int, ayah: int, reciter: string, started: bool)
      reads this, audio
    {
      && currentSurah == Some(surah) && currentAyah == Some(ayah)
      && !isLoading
      && isPlaying == started
      && (started ==> audio != null
                      && audio.View() == Handle(Some(QuranApi.AyahAudioUrl(surah, ayah, reciter)), volume, 0.0, false, false))
      && (!started ==> audio == null)
    }

    /** The initial state. */
    constructor ()
      ensures Valid() && Idle() && volume == DefaultVolume
    {
      audio := null;
      isPlaying := false;
      currentSurah := None;
      currentAyah := None;
      isLoading := false;
      volume := DefaultVolume;
    }

    /**
     * The synchronous part of `play`: the guard, the clean-up of the
     * previous element and the loading state.
     */
    method BeginPlay(surah: int, ayah: int) returns (proceed: bool)
      requires Valid()
      modifies this, audio
      ensures Valid()
      ensures proceed == Playable(surah, ayah)
      ensures !proceed ==> State() == old(State()).(isLoading := false)
      ensures !proceed && old(audio) != null ==> old(audio).View() == old(audio.View())
      ensures proceed ==> State() == Snapshot(null, false, true, Some(surah), Some(ayah), old(volume))
      ensures proceed && old(audio) != null ==> old(audio).View() == old(audio.View()).(paused := true, src := None)
    {
      if !Playable(surah, ayah) {
        isLoading := false;
        return false;
      }
      var currentAudio := audio;
      CleanupAudio(currentAudio);
      isLoading, isPlaying, audio, currentSurah, currentAyah := true, false, null, Some(surah), Some(ayah);
      return true;
    }

    /**
     * The asynchronous part of `play`: a new element for the verse's URL at
     * the stored volume; if its `play()` resolves it becomes the store's
     * element, otherwise the store is left without one. The position stays
     * recorded either way.
     */
    method FinishPlay(surah: int, ayah: int, reciter: string, started: bool)
      requires Valid()
      requires audio == null && !isPlaying
      requires currentSurah == Some(surah) && currentAyah == Some(ayah)
      modifies this
      ensures Valid()
      ensures Settled(surah, ayah, reciter, started)
      ensures volume == old(volume)
      ensures started ==> fresh(audio)
    {
      var audioUrl := QuranApi.AyahAudioUrl(surah, ayah, reciter);
      var newAudio := new AudioElement(audioUrl);
      newAudio.volume := volume;
      newAudio.Start(started);
      if started {
        audio, isPlaying, isLoading := newAudio, true, false;
      } else {
        isLoading, isPlaying, audio := false, false, null;
        CleanupAudio(audio);
      }
    }

    /** `play(surah, ayah)` with the reciter from the settings. */
    method Play(surah: int, ayah: int, reciter: string, started: bool)
      requires Valid()
      modifies this, audio
      ensures Valid()
      ensures !Playable(surah, ayah) ==> State() == old(State()).(isLoading := false)
      ensures !Playable(surah, ayah) && old(audio) != null ==> old(audio).View() == old(audio.View())
      ensures Playable(surah, ayah) ==> Settled(surah, ayah, reciter, started) && volume == old(volume)
      ensures Playable(surah, ayah) && started ==> fresh(audio)
      ensures Playable(surah, ayah) && old(audio) != null ==> old(audio).View() == old(audio.View()).(paused := true, src := None)
    {
      var proceed := BeginPlay(surah, ayah);
      if proceed {
        FinishPlay(surah, ayah, reciter, started);
      }
    }

    /** `pause`: only acts on an element that is playing. */
    method Pause()
      requires Valid()
      modifies this, audio
      ensures Valid()
      ensures old(audio != null && isPlaying) ==> State() == old(State()).(isPlaying := false)
      ensures old(audio != null && isPlaying) ==> audio.View() == old(audio.View()).(paused := true)
      ensures !old(audio != null && isPlaying) ==> State() == old(State())
      ensures !old(audio != null && isPlaying) && audio != null ==> audio.View() == old(audio.View())
    {
      if audio != null && isPlaying {
        audio.Pause();
        isPlaying := false;
      }
    }

    /**
     * `stop`: release the element and forget the position; the volume
     * stays. From an idle store nothing changes, so stopping twice is
     * stopping once.
     */
    method Stop()
      requires Valid()
      modifies this, audio
      ensures Valid() && Idle()
      ensures volume == old(volume)
      ensures old(Idle()) ==> State() == old(State())
      ensures old(audio) != null ==> old(audio).View() == old(audio.View()).(paused := true, src := None)
    {
      var current := audio;
      CleanupAudio(current);
      audio, isPlaying, currentSurah, currentAyah, isLoading := null, false, None, None, false;
    }

    /** `setVolume(v)`: store the clamped value and apply it to the element if any. */
    method SetVolume(newVolume: real)
      requires Valid()
      modifies this, audio
      ensures Valid()
      ensures State() == old(State()).(volume := Clamp(newVolume))
      ensures audio != null ==> audio.View() == old(audio.View()).(volume := Clamp(newVolume))
    {
      var clampedVolume := Clamp(newVolume);
      if audio != null {
        audio.volume := clampedVolume;
      }
      volume := clampedVolume;
    }

    /**
     * The element reaches the end of its verse: the browser marks it
     * paused, then runs its `onended` handler, which clears `isPlaying`.
     * The 300 ms timer the handler starts calls PlayNext, which is a
     * separate step here.
     */
    method OnEnded()
      requires Valid()
      modifies this, audio
      ensures Valid()
      ensures State() == old(State()).(isPlaying := false)
      ensures audio != null ==> audio.View() == old(audio.View()).(paused := true)
    {
      if audio != null {
        audio.Pause();
      }
      isPlaying := false;
    }

    /** The element's `onerror` handler: the store drops the element but keeps the position. */
    method OnError()
      requires Valid()
      modifies this
      ensures Valid()
      ensures State() == old(State()).(isLoading := false, isPlaying := false, audio := null)
    {
      isLoading, isPlaying, audio := false, false, null;
    }

    /**
     * `playNext`, with `verseCount` standing for `getSurah(n).numberOfAyahs`
     * (None when the request fails) and `started` for the outcome of the
     * new element's `play()`.
     */
    method PlayNext(verseCount: int -> Option<int>, reciter: string, started: bool)
      requires Valid()
      modifies this, audio
      ensures Valid()
      ensures volume == old(volume)
      ensures old(currentSurah).None? ==> Idle()
      ensures old(currentSurah).Some? ==>
        match NextMove(old(currentSurah).value, old(currentAyah).value, verseCount)
        case MoveTo(s, a) => Settled(s, a, reciter, started)
        case _ => Idle()
      ensures old(audio) != null ==> old(audio).View() == old(audio.View()).(paused := true, src := None)
    {
      if currentSurah.None? || currentAyah.None? {
        Stop();
        return;
      }
      var surah, ayah := currentSurah.value, currentAyah.value;
      isLoading := true;
      match verseCount(surah) {
        case None =>
          isLoading := false;
          Stop();
        case Some(numberOfAyahs) =>
          if ayah < numberOfAyahs {
            Play(surah, ayah + 1, reciter, started);
          } else if surah < QuranApi.LastSurah {
            Play(surah + 1, 1, reciter, started);
          } else {
            Stop();
          }
      }
    }

    /** The "played more than 3 s" test of `playPrevious`. */
    predicate ShouldRestart()
      reads this, audio
      ensures ShouldRestart() ==> audio != null && !audio.seeking
      ensures audio != null && audio.currentTime == 0.0 ==> !ShouldRestart()
    {
      audio != null && audio.currentTime > RestartAfter && !audio.seeking
    }

    /**
     * Right after a `play` has settled, "previous" does not restart the
     * verse: a started element is at time 0, and a failed start left none.
     */
    lemma SettledIsNotRestarted(surah: int, ayah: int, reciter: string, started: bool)
      requires Settled(surah, ayah, reciter, started)
      ensures !ShouldRestart()
    {
    }

    /**
     * Rewind the element to 0 and, if it was paused, call its `play()` and
     * mark the store as playing whether or not that call resolved.
     */
    method Restart(resolves: bool)
      requires Valid() && audio != null
      modifies this, audio
      ensures Valid()
      ensures State() == old(State()).(isPlaying := old(isPlaying) || old(audio.paused))
      ensures audio.View() == old(audio.View()).(currentTime := 0.0, paused := old(audio.paused) && !resolves)
    {
      audio.currentTime := 0.0;
      if audio.paused {
        audio.Start(resolves);
        isPlaying := true;
      }
    }

    /**
     * `playPrevious`, with `verseCount` and `started` as for PlayNext and
     * `restartResolves` the outcome of `play()` on a rewound element.
     */
    method PlayPrevious(verseCount: int -> Option<int>, reciter: string, started: bool, restartResolves: bool)
      requires Valid()
      modifies this, audio
      ensures Valid()
      ensures volume == old(volume)
      ensures old(currentSurah).None? ==> State() == old(State())
      ensures old(currentSurah).Some? && old(ShouldRestart()) ==>
        && State() == old(State()).(isPlaying := old(isPlaying) || old(audio.paused))
        && audio.View() == old(audio.View()).(currentTime := 0.0, paused := old(audio.paused) && !restartResolves)
      ensures old(currentSurah).Some? && !old(ShouldRestart()) ==>
        match PreviousMove(old(currentSurah).value, old(currentAyah).value, verseCount)
        case MoveTo(s, a) =>
          if Playable(s, a) then Settled(s, a, reciter, started)
          else State() == old(State()).(isLoading := false)
        case StopPlayback => Idle()
        case StayAtStart =>
          if old(audio) == null then State() == old(State()).(isLoading := false)
          else
            && State() == old(State()).(isPlaying := old(isPlaying) || old(audio.paused), isLoading := false)
            && audio.View() == old(audio.View()).(currentTime := 0.0, paused := old(audio.paused) && !restartResolves)
      ensures old(currentSurah).Some? && !old(ShouldRestart()) && old(audio) != null ==>
        match PreviousMove(old(currentSurah).value, old(currentAyah).value, verseCount)
        case MoveTo(s, a) =>
          old(audio).View() == if Playable(s, a) then old(audio.View()).(paused := true, src := None) else old(audio.View())
        case StopPlayback => old(audio).View() == old(audio.View()).(paused := true, src := None)
        case StayAtStart => true
    {
      if currentSurah.None? || currentAyah.None? {
        return;
      }
      var surah, ayah := currentSurah.value, currentAyah.value;
      if audio != null && audio.currentTime > RestartAfter && !audio.seeking {
        Restart(restartResolves);
        return;
      }
      isLoading := true;
      if ayah > 1 {
        Play(surah, ayah - 1, reciter, started);
      } else if surah > 1 {
        var prevSurahNum := surah - 1;
        match verseCount(prevSurahNum) {
          case None =>
            isLoading := false;
            Stop();
          case Some(numberOfAyahs) =>
            Play(prevSurahNum, numberOfAyahs, reciter, started);
        }
      } else {
        if surah == 1 && ayah == 1 && audio != null {
          Restart(restartResolves);
        }
        isLoading := false;
      }
    }
  }
}

/**
 * The footer player: the decisions it takes on the playback store's state
 * (which volume icon, what mute does, what the main button does, when the
 * last-read position is recorded, when the player is shown).
 */
module FooterPlayer {
  import opened Wrappers
  import Audio
  import Bookmarks

  /** `!x` is false for a set, non-zero number. */
  predicate Truthy(n: Option<int>) {
    n.Some? && n.value != 0
  }

  /** The player renders only with both parts of the position set. */
  predicate ShowsPlayer(currentSurah: Option<int>, currentAyah: Option<int>)
    ensures ShowsPlayer(currentSurah, currentAyah) ==> currentSurah.Some? && currentAyah.Some?
    ensures ShowsPlayer(currentSurah, currentAyah) ==> currentSurah != Some(0) && currentAyah != Some(0)
  {
    Truthy(currentSurah) && Truthy(currentAyah)
  }

  /** In every state the store can reach, the player is shown exactly when a position is set. */
  lemma ShowsPlayerForValidStore(store: Audio.AudioState)
    requires store.Valid()
    ensures ShowsPlayer(store.currentSurah, store.currentAyah) <==> store.currentSurah.Some?
  {
  }

  datatype VolumeIcon = Muted | Low | High

  /** `volume === 0 ? VolumeX : volume <= 0.5 ? Volume1 : Volume2`. */
  function VolumeIconFor(volume: real): (icon: VolumeIcon)
    ensures icon == Muted <==> volume == 0.0
    ensures icon == Low <==> volume != 0.0 && volume <= 0.5
    ensures icon == High <==> volume > 0.5
  {
    if volume == 0.0 then Muted else if volume <= 0.5 then Low else High
  }

  /** Over the stored volume range the icon never gets quieter as the volume rises. */
  lemma VolumeIconMonotone(v1: real, v2: real)
    requires 0.0 <= v1 <= v2 <= 1.0
    ensures IconLevel(VolumeIconFor(v1)) <= IconLevel(VolumeIconFor(v2))
  {
  }

  function IconLevel(icon: VolumeIcon): nat {
    match icon
    case Muted => 0
    case Low => 1
    case High => 2
  }

  /** The volume `toggleMute` asks for: 0 when audible, 0.75 otherwise. */
  function MuteTarget(volume: real): (r: real)
    ensures volume > 0.0 ==> r == 0.0
    ensures volume <= 0.0 ==> r == Audio.DefaultVolume
    ensures Audio.Clamp(r) == r
  {
    if volume > 0.0 then 0.0 else 0.75
  }

  /** Muting and then unmuting lands on 0.75 whatever the level before. */
  lemma MuteUnmuteGivesDefault(volume: real)
    requires volume > 0.0
    ensures MuteTarget(MuteTarget(volume)) == Audio.DefaultVolume
  {
  }

  /** So the level before muting is lost whenever it was not 0.75. */
  lemma MuteUnmuteLosesLevel()
    ensures MuteTarget(MuteTarget(0.3)) != 0.3
  {
    MuteUnmuteGivesDefault(0.3);
  }

  /** `toggleMute`. */
  method ToggleMute(store: Audio.AudioState)
    requires store.Valid()
    modifies store, store.audio
    ensures store.Valid()
    ensures store.State() == old(store.State()).(volume := MuteTarget(old(store.volume)))
    ensures store.audio != null ==> store.audio.View() == old(store.audio.View()).(volume := MuteTarget(old(store.volume)))
  {
    if store.volume > 0.0 {
      store.SetVolume(0.0);
    } else {
      store.SetVolume(0.75);
    }
  }

  /**
   * `handleVolumeChange`: the slider's first value goes to `setVolume`.
   * The slider always reports one value.
   */
  method HandleVolumeChange(store: Audio.AudioState, value: seq<real>)
    requires store.Valid()
    requires |value| >= 1
    modifies store, store.audio
    ensures store.Valid()
    ensures store.State() == old(store.State()).(volume := Audio.Clamp(value[0]))
    ensures store.audio != null ==> store.audio.View() == old(store.audio.View()).(volume := Audio.Clamp(value[0]))
  {
    store.SetVolume(value[0]);
  }

  /** The last-read effect: a set position is recorded (stamped `now`); otherwise nothing happens. */
  method SyncLastRead(player: Audio.AudioState, bookmarks: Bookmarks.BookmarkStore, now: int)
    requires bookmarks.Valid()
    modifies bookmarks
    ensures bookmarks.Valid()
    ensures bookmarks.bookmarks == old(bookmarks.bookmarks)
    ensures Truthy(player.currentSurah) && Truthy(player.currentAyah) ==>
      bookmarks.lastRead == Some(Bookmarks.BookmarkItem(player.currentSurah.value, player.currentAyah.value, now))
    ensures !(Truthy(player.currentSurah) && Truthy(player.currentAyah)) ==> bookmarks.lastRead == old(bookmarks.lastRead)
  {
    if Truthy(player.currentSurah) && Truthy(player.currentAyah) {
      bookmarks.SetLastRead(player.currentSurah.value, player.currentAyah.value, now);
    }
  }

  /** The transport buttons are disabled while the store is loading. */
  predicate ButtonsEnabled(isLoading: bool) {
    !isLoading
  }

  /** Once a `play` has settled, whether or not the browser started it, the buttons are enabled again. */
  lemma ButtonsEnabledOnceSettled(store: Audio.AudioState, surah: int, ayah: int, reciter: string, started: bool)
    requires store.Settled(surah, ayah, reciter, started)
    ensures ButtonsEnabled(store.isLoading)
  {
  }

  datatype MainAction = PauseCurrent | PlayCurrent

  /** The main button pauses while playing and plays the current position otherwise. */
  function MainButtonAction(isPlaying: bool): MainAction {
    if isPlaying then PauseCurrent else PlayCurrent
  }

  /**
   * A click on the main button, which the player only offers when it is
   * shown and enabled.
   */
  method PressMainButton(store: Audio.AudioState, reciter: string, started: bool)
    requires store.Valid()
    requires ShowsPlayer(store.currentSurah, store.currentAyah) && ButtonsEnabled(store.isLoading)
    modifies store, store.audio
    ensures store.Valid()
    ensures old(store.isPlaying) ==> store.State() == old(store.State()).(isPlaying := false)
    ensures old(store.isPlaying) ==> store.audio.View() == old(store.audio.View()).(paused := true)
    ensures !old(store.isPlaying) ==>
      store.Settled(old(store.currentSurah).value, old(store.currentAyah).value, reciter, started)
      && store.volume == old(store.volume)
  {
    match MainButtonAction(store.isPlaying) {
      case PauseCurrent =>
        store.Pause();
      case PlayCurrent =>
        store.Play(store.currentSurah.value, store.currentAyah.value, reciter, started);
    }
  }
}

/**
 * The settings store: theme, font sizes, whether translations are shown,
 * the translation edition and the reciter. Every action rewrites one field.
 */
module Settings {

  datatype Theme = Dark | Light

  datatype FontSize = Small | Medium | Large

  /** All settings at one moment. */
  datatype Snapshot = Snapshot(
    theme: Theme,
    arabicFontSize: FontSize,
    translationFontSize: FontSize,
    showTranslation: bool,
    translationLanguage: string,
    reciter: string)

  const DefaultTranslationLanguage := "en.asad"
  const DefaultReciter := "ar.alafasy"

  /** `state.theme === 'dark' ? 'light' : 'dark'`. */
  function Flipped(theme: Theme): (r: Theme)
    ensures r != theme
  {
    if theme == Dark then Light else Dark
  }

  /** Toggling the theme twice restores it. */
  lemma FlippedInvolution(theme: Theme)
    ensures Flipped(Flipped(theme)) == theme
  {
  }

  /** `useSettingsStore`. */
  class SettingsStore {
    var theme: Theme
    var arabicFontSize: FontSize
    var translationFontSize: FontSize
    var showTranslation: bool
    var translationLanguage: string
    var reciter: string

    function State(): Snapshot
      reads this
    {
      Snapshot(theme, arabicFontSize, translationFontSize, showTranslation, translationLanguage, reciter)
    }

    /** The defaults: dark theme, medium fonts, translation shown, Asad's English, Alafasy. */
    constructor ()
      ensures State() == Snapshot(Dark, Medium, Medium, true, DefaultTranslationLanguage, DefaultReciter)
    {
      theme := Dark;
      arabicFontSize := Medium;
      translationFontSize := Medium;
      showTranslation := true;
      translationLanguage := DefaultTranslationLanguage;
      reciter := DefaultReciter;
    }

    /** `toggleTheme`: swap dark and light. */
    method ToggleTheme()
      modifies this
      ensures State() == old(State()).(theme := Flipped(old(theme)))
    {
      theme := if theme == Dark then Light else Dark;
    }

    /** `setArabicFontSize`. */
    method SetArabicFontSize(size: FontSize)
      modifies this
      ensures State() == old(State()).(arabicFontSize := size)
    {
      arabicFontSize := size;
    }

    /** `setTranslationFontSize`. */
    method SetTranslationFontSize(size: FontSize)
      modifies this
      ensures State() == old(State()).(translationFontSize := size)
    {
      translationFontSize := size;
    }

    /** `toggleTranslation`: negate the flag. */
    method ToggleTranslation()
      modifies this
      ensures State() == old(State()).(showTranslation := !old(showTranslation))
    {
      showTranslation := !showTranslation;
    }

    /** `setTranslationLanguage`. */
    method SetTranslationLanguage(language: string)
      modifies this
      ensures State() == old(State()).(translationLanguage := language)
    {
      translationLanguage := language;
    }

    /** `setReciter`. */
    method SetReciter(newReciter: string)
      modifies this
      ensures State() == old(State()).(reciter := newReciter)
    {
      reciter := newReciter;
    }

    /** Toggling the theme twice leaves every setting as it was. */
    method ToggleThemeTwice()
      modifies this
      ensures State() == old(State())
    {
      ToggleTheme();
      ToggleTheme();
      FlippedInvolution(old(theme));
    }

    /** Toggling the translation twice leaves every setting as it was. */
    method ToggleTranslationTwice()
      modifies this
      ensures State() == old(State())
    {
      ToggleTranslation();
      ToggleTranslation();
    }
  }
}

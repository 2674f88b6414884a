/**
 * The content service: the static verse-count table, the absolute verse
 * index derived from it, the recitation URLs, and the back-fill that gives
 * every fetched verse its chapter record.
 */
module QuranApi {
  import opened Wrappers

  // ---------------------------------------------------------------------
  // Records returned by the remote service
  // ---------------------------------------------------------------------

  /** A chapter as listed by the service (`Surah`). */
  datatype Surah = Surah(
    number: int,
    name: string,
    englishName: string,
    englishNameTranslation: string,
    numberOfAyahs: int,
    revelationType: string)

  /** The chapter record embedded in a verse (`Ayah.surah`). */
  datatype SurahRef = SurahRef(
    number: int,
    name: string,
    englishName: string,
    englishNameTranslation: string,
    revelationType: string)

  /** A verse; the service may omit its chapter record. */
  datatype Ayah = Ayah(
    number: int,
    text: string,
    numberInSurah: int,
    juz: int,
    surah: Option<SurahRef>)

  /** A translated verse. */
  datatype Translation = Translation(
    number: int,
    text: string,
    numberInSurah: int,
    surahNumber: int)

  // ---------------------------------------------------------------------
  // The verse-count table and the absolute verse index
  // ---------------------------------------------------------------------

  /** The number of entries of the verse-count table (index 0 and chapters 1..114). */
  const TableLength := 115

  /** The number of the last chapter. */
  const LastSurah := 114

  /**
   * The entries of `AYAH_COUNTS`: verses per chapter, indexed by chapter
   * number; entry 0 is unused and there is no entry past 114.
   */
  function CountsTable(index: int): nat {
    match index
    case 0 => 0
    case 1 => 7 case 2 => 286 case 3 => 200 case 4 => 176 case 5 => 120 case 6 => 165 case 7 => 206 case 8 => 75 case 9 => 129 case 10 => 109
    case 11 => 123 case 12 => 111 case 13 => 43 case 14 => 52 case 15 => 99 case 16 => 128 case 17 => 111 case 18 => 110 case 19 => 98 case 20 => 135
    case 21 => 112 case 22 => 78 case 23 => 118 case 24 => 64 case 25 => 77 case 26 => 227 case 27 => 93 case 28 => 88 case 29 => 69 case 30 => 60
    case 31 => 34 case 32 => 30 case 33 => 73 case 34 => 54 case 35 => 45 case 36 => 83 case 37 => 182 case 38 => 88 case 39 => 75 case 40 => 85
    case 41 => 54 case 42 => 53 case 43 => 89 case 44 => 59 case 45 => 37 case 46 => 35 case 47 => 38 case 48 => 29 case 49 => 18 case 50 => 45
    case 51 => 60 case 52 => 49 case 53 => 62 case 54 => 55 case 55 => 78 case 56 => 96 case 57 => 29 case 58 => 22 case 59 => 24 case 60 => 13
    case 61 => 14 case 62 => 11 case 63 => 11 case 64 => 18 case 65 => 12 case 66 => 12 case 67 => 30 case 68 => 52 case 69 => 52 case 70 => 44
    case 71 => 28 case 72 => 28 case 73 => 20 case 74 => 56 case 75 => 40 case 76 => 31 case 77 => 50 case 78 => 40 case 79 => 46 case 80 => 42
    case 81 => 29 case 82 => 19 case 83 => 36 case 84 => 25 case 85 => 22 case 86 => 17 case 87 => 19 case 88 => 26 case 89 => 30 case 90 => 20
    case 91 => 15 case 92 => 21 case 93 => 11 case 94 => 8 case 95 => 8 case 96 => 19 case 97 => 5 case 98 => 8 case 99 => 8 case 100 => 11
    case 101 => 11 case 102 => 8 case 103 => 3 case 104 => 9 case 105 => 5 case 106 => 4 case 107 => 7 case 108 => 3 case 109 => 6 case 110 => 3
    case 111 => 5 case 112 => 4 case 113 => 5 case 114 => 6
    case _ => 0
  }

  /**
   * The table read by scanning its entries from `from` upwards. Reading
   * through the scan keeps the solver from expanding all 115 entries
   * wherever a symbolic index is looked up; ScanFindsEntry shows that the
   * scan returns the entry.
   */
  function ScanCounts(index: int, from: nat): nat
    decreases TableLength - from
  {
    if from >= TableLength then 0
    else if from == index then CountsTable(from)
    else ScanCounts(index, from + 1)
  }

  /** `AYAH_COUNTS[index]` for an index inside the table. */
  function AyahCount(index: int): nat
    requires 0 <= index < TableLength
  {
    ScanCounts(index, 0)
  }

  /** A scan started at or below the index stops at that index's entry. */
  lemma {:induction false} ScanFindsEntry(index: int, from: nat)
    requires from <= index < TableLength
    ensures ScanCounts(index, from) == CountsTable(index)
    decreases index - from
  {
    if from < index {
      ScanFindsEntry(index, from + 1);
    }
  }

  /** AyahCount is the table entry. */
  lemma AyahCountIsTable(index: int)
    requires 0 <= index < TableLength
    ensures AyahCount(index) == CountsTable(index)
  {
    ScanFindsEntry(index, 0);
  }

  /** A (chapter, verse) pair that names an existing verse according to the table. */
  predicate ValidPosition(surah: int, ayah: int) {
    1 <= surah <= LastSurah && 1 <= ayah <= AyahCount(surah)
  }

  /** The table's unused entry is 0 and every chapter has at least one verse. */
  lemma AyahCountsShape()
    ensures AyahCount(0) == 0
    ensures forall i :: 1 <= i <= LastSurah ==> AyahCount(i) > 0
  {
    forall i | 0 <= i <= LastSurah
      ensures AyahCount(i) == CountsTable(i)
    {
      AyahCountIsTable(i);
    }
  }

  /** The verses of all chapters numbered below `surah`. */
  function AyahsBefore(surah: int): nat
    requires surah <= TableLength
    decreases surah
  {
    if surah <= 1 then 0 else AyahsBefore(surah - 1) + AyahCount(surah - 1)
  }

  /**
   * The absolute verse number computed for (surah, ayah). For a chapter
   * number above 115 the source reads past the end of the table, adds
   * `undefined`, and the sum becomes NaN, modelled as None.
   */
  function AbsoluteIndex(surah: int, ayah: int): (r: Option<int>)
    ensures r.None? <==> surah > TableLength
    ensures r.Some? ==> r.value >= ayah
    ensures surah <= 1 ==> r == Some(ayah)
  {
    if surah > TableLength then None else Some(ayah + AyahsBefore(surah))
  }

  /** `getAbsoluteAyahNumber`: the accumulating loop over the table. */
  method AbsoluteAyahNumber(surahNumber: int, ayahNumberInSurah: int) returns (r: Option<int>)
    ensures r == AbsoluteIndex(surahNumber, ayahNumberInSurah)
  {
    var absolute := ayahNumberInSurah;
    var i := 1;
    while i < surahNumber
      invariant 1 <= i <= TableLength
      invariant i <= surahNumber || i == 1
      invariant absolute == ayahNumberInSurah + AyahsBefore(i)
      decreases surahNumber - i
    {
      if i == TableLength {
        // AYAH_COUNTS[115] is undefined: the sum is NaN from here on.
        return None;
      }
      absolute := absolute + AyahCount(i);
      i := i + 1;
    }
    return Some(absolute);
  }

  /** The first chapter adds nothing: its absolute numbers are its verse numbers. */
  lemma AbsoluteIndexOfFirstSurah(ayah: int)
    ensures AbsoluteIndex(1, ayah) == Some(ayah)
  {
  }

  /** The first verse of chapter 2 is verse 8 overall (chapter 1 has 7 verses). */
  lemma AbsoluteIndexExample()
    ensures AbsoluteIndex(2, 1) == Some(8)
  {
  }

  /** The last verse of a chapter is followed by the first verse of the next one. */
  lemma ChapterBoundaryContinuity(surah: int)
    requires 1 <= surah < LastSurah
    ensures AbsoluteIndex(surah, AyahCount(surah)).Some?
    ensures AbsoluteIndex(surah + 1, 1).Some?
    ensures AbsoluteIndex(surah, AyahCount(surah)).value + 1 == AbsoluteIndex(surah + 1, 1).value
  {
  }

  /** Within one chapter the absolute number grows with the verse number. */
  lemma AbsoluteIndexIncreasing(surah: int, ayah1: int, ayah2: int)
    requires surah <= TableLength && ayah1 < ayah2
    ensures AbsoluteIndex(surah, ayah1).value < AbsoluteIndex(surah, ayah2).value
  {
  }

  /** Chapters further on start later: the prefix sums are monotone. */
  lemma {:induction false} AyahsBeforeMonotone(s1: int, s2: int)
    requires s1 <= s2 <= TableLength
    ensures AyahsBefore(s1) <= AyahsBefore(s2)
    decreases s2 - s1
  {
    if s1 < s2 {
      AyahsBeforeMonotone(s1, s2 - 1);
    }
  }

  /** A valid verse of chapter s lies strictly after every verse of the chapters before it. */
  lemma AbsoluteIndexWithinChapter(surah: int, ayah: int)
    requires ValidPosition(surah, ayah)
    ensures AyahsBefore(surah) < AbsoluteIndex(surah, ayah).value <= AyahsBefore(surah + 1)
  {
  }

  /** Distinct verses have distinct absolute numbers. */
  lemma AbsoluteIndexInjective(s1: int, a1: int, s2: int, a2: int)
    requires ValidPosition(s1, a1) && ValidPosition(s2, a2)
    requires AbsoluteIndex(s1, a1) == AbsoluteIndex(s2, a2)
    ensures s1 == s2 && a1 == a2
  {
    AbsoluteIndexWithinChapter(s1, a1);
    AbsoluteIndexWithinChapter(s2, a2);
    if s1 < s2 {
      AyahsBeforeMonotone(s1 + 1, s2);
    } else if s2 < s1 {
      AyahsBeforeMonotone(s2 + 1, s1);
    }
  }

  /** The static table seen as a verse-count lookup that fails outside 1..114. */
  function StaticVerseCount(surah: int): Option<int> {
    if 1 <= surah <= LastSurah then Some(AyahCount(surah) as int) else None
  }

  // ---------------------------------------------------------------------
  // Decimal text of numbers (JavaScript template interpolation)
  // ---------------------------------------------------------------------

  predicate AllDigits(s: string) {
    forall i :: 0 <= i < |s| ==> '0' <= s[i] <= '9'
  }

  function DigitChar(d: nat): (c: char)
    requires d < 10
    ensures '0' <= c <= '9' && c as int - '0' as int == d
  {
    ('0' as int + d) as char
  }

  /** Decimal digits of a natural number, without leading zeros. */
  function NatToString(n: nat): (s: string)
    ensures |s| >= 1 && AllDigits(s)
    decreases n
  {
    if n < 10 then [DigitChar(n)] else NatToString(n / 10) + [DigitChar(n % 10)]
  }

  /** The number a string of decimal digits denotes. */
  function DigitsValue(s: string): nat
    requires AllDigits(s)
  {
    if s == [] then 0 else DigitsValue(s[..|s| - 1]) * 10 + (s[|s| - 1] as int - '0' as int)
  }

  /** Reading back the digits of n gives n. */
  lemma {:induction false} NatToStringRoundTrip(n: nat)
    ensures DigitsValue(NatToString(n)) == n
    decreases n
  {
    if n >= 10 {
      NatToStringRoundTrip(n / 10);
      var s := NatToString(n);
      assert s[..|s| - 1] == NatToString(n / 10);
    }
  }

  /** Decimal text of an integer as `${n}` renders it. */
  function IntToString(n: int): (s: string)
    ensures |s| >= 1
    ensures n >= 0 ==> AllDigits(s) && DigitsValue(s) == n
    ensures n < 0 ==> s[0] == '-' && AllDigits(s[1..]) && DigitsValue(s[1..]) == -n
  {
    if n < 0 then
      NatToStringRoundTrip(-n);
      assert ("-" + NatToString(-n))[1..] == NatToString(-n);
      "-" + NatToString(-n)
    else
      NatToStringRoundTrip(n);
      NatToString(n)
  }

  /** How a possibly-NaN number is rendered inside a template string. */
  function NumberText(n: Option<int>): string {
    match n
    case None => "NaN"
    case Some(v) => IntToString(v)
  }

  // ---------------------------------------------------------------------
  // Recitation URLs
  // ---------------------------------------------------------------------

  const DefaultReciter := "ar.alafasy"
  const AyahAudioBase := "https://cdn.islamic.network/quran/audio/128/"
  const SurahAudioBase := "https://cdn.islamic.network/quran/audio-surah/128/"

  /** URL of the recitation of one verse, addressed by its absolute number. */
  function AyahAudioUrl(surahNumber: int, ayahNumber: int, reciter: string := DefaultReciter): (url: string)
    ensures |url| > |AyahAudioBase + reciter + "/"| + 4
    ensures url[..|AyahAudioBase + reciter + "/"|] == AyahAudioBase + reciter + "/"
    ensures url[|url| - 4..] == ".mp3"
  {
    AyahAudioBase + reciter + "/" + NumberText(AbsoluteIndex(surahNumber, ayahNumber)) + ".mp3"
  }

  /** URL of the recitation of a whole chapter. */
  function SurahAudioUrl(surahNumber: int, reciter: string := DefaultReciter): (url: string)
    ensures |url| > |SurahAudioBase + reciter + "/"| + 4
    ensures url[..|SurahAudioBase + reciter + "/"|] == SurahAudioBase + reciter + "/"
    ensures url[|url| - 4..] == ".mp3"
  {
    SurahAudioBase + reciter + "/" + IntToString(surahNumber) + ".mp3"
  }

  /** Chapter 2, verse 1 is file 8 of the reciter's collection. */
  lemma AyahAudioUrlExample()
    ensures AyahAudioUrl(2, 1, "X") == "https://cdn.islamic.network/quran/audio/128/X/8.mp3"
    ensures AyahAudioUrl(1, 1) == "https://cdn.islamic.network/quran/audio/128/ar.alafasy/1.mp3"
  {
    AyahCountIsTable(1);
    assert AbsoluteIndex(2, 1) == Some(8);
    assert NumberText(Some(8)) == "8" && NumberText(Some(1)) == "1";
  }

  /**
   * The file name of a verse URL decodes back to the verse's absolute
   * number: the URL is the fixed prefix, the reciter, and those digits.
   */
  lemma AyahAudioUrlDecodes(surah: int, ayah: int, reciter: string)
    requires ValidPosition(surah, ayah)
    ensures var url := AyahAudioUrl(surah, ayah, reciter);
            var start := |AyahAudioBase + reciter + "/"|;
            && start < |url| - 4
            && url[..start] == AyahAudioBase + reciter + "/"
            && url[|url| - 4..] == ".mp3"
            && AllDigits(url[start..|url| - 4])
            && DigitsValue(url[start..|url| - 4]) == AbsoluteIndex(surah, ayah).value
  {
    var n := AbsoluteIndex(surah, ayah).value;
    var digits := NatToString(n);
    var head := AyahAudioBase + reciter + "/";
    var url := AyahAudioUrl(surah, ayah, reciter);
    assert url == head + digits + ".mp3";
    assert url[|head|..|url| - 4] == digits;
    NatToStringRoundTrip(n);
  }

  /** With one reciter, two verses share a URL only if they are the same verse. */
  lemma AyahAudioUrlInjective(s1: int, a1: int, s2: int, a2: int, reciter: string)
    requires ValidPosition(s1, a1) && ValidPosition(s2, a2)
    requires AyahAudioUrl(s1, a1, reciter) == AyahAudioUrl(s2, a2, reciter)
    ensures s1 == s2 && a1 == a2
  {
    AyahAudioUrlDecodes(s1, a1, reciter);
    AyahAudioUrlDecodes(s2, a2, reciter);
    AbsoluteIndexInjective(s1, a1, s2, a2);
  }

  /** The chapter URL names the chapter number in decimal. */
  lemma SurahAudioUrlDecodes(surah: nat, reciter: string)
    ensures var url := SurahAudioUrl(surah, reciter);
            var start := |SurahAudioBase + reciter + "/"|;
            && start < |url| - 4
            && url[..start] == SurahAudioBase + reciter + "/"
            && url[|url| - 4..] == ".mp3"
            && AllDigits(url[start..|url| - 4])
            && DigitsValue(url[start..|url| - 4]) == surah
  {
    var head := SurahAudioBase + reciter + "/";
    var url := SurahAudioUrl(surah, reciter);
    assert url == head + NatToString(surah) + ".mp3";
    assert url[|head|..|url| - 4] == NatToString(surah);
    NatToStringRoundTrip(surah);
  }

  // ---------------------------------------------------------------------
  // Back-fill of the chapter record in fetched verses
  // ---------------------------------------------------------------------

  /** The chapter record a verse receives from its chapter. */
  function RefOf(info: Surah): SurahRef {
    SurahRef(info.number, info.name, info.englishName, info.englishNameTranslation, info.revelationType)
  }

  /** A verse after back-fill: its own record if it has one, else the chapter's. */
  function FillSurah(ayah: Ayah, info: Surah): (r: Ayah)
    ensures r.surah.Some?
    ensures ayah.surah.Some? ==> r == ayah
    ensures ayah.surah.None? ==> r.surah == Some(RefOf(info))
    ensures r.(surah := ayah.surah) == ayah
  {
    if ayah.surah.None? then ayah.(surah := Some(RefOf(info))) else ayah
  }

  /** Back-filling twice is the same as once. */
  lemma FillSurahIdempotent(ayah: Ayah, info: Surah, other: Surah)
    ensures FillSurah(FillSurah(ayah, info), other) == FillSurah(ayah, info)
  {
  }

  /**
   * The `forEach` of `getSurah`: verses without a chapter record get the
   * chapter's, in place; a response without a verse list is left alone.
   */
  method BackfillSurah(info: Surah, ayahs: array?<Ayah>)
    modifies ayahs
    ensures ayahs != null ==> forall i :: 0 <= i < ayahs.Length ==> ayahs[i] == FillSurah(old(ayahs[i]), info)
  {
    if ayahs == null {
      return;
    }
    for i := 0 to ayahs.Length
      invariant forall j :: 0 <= j < i ==> ayahs[j] == FillSurah(old(ayahs[j]), info)
      invariant forall j :: i <= j < ayahs.Length ==> ayahs[j] == old(ayahs[j])
    {
      if ayahs[i].surah.None? {
        ayahs[i] := ayahs[i].(surah := Some(RefOf(info)));
      }
    }
  }
}

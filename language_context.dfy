/**
 * Choice of the interface language: detection from the device locale, the choice
 * between a saved preference and detection at start-up, and the store-then-set rule
 * when the user picks a language.
 */
module LanguageContext {
  import opened Wrappers
  import opened Languages

  /** The part of a locale before its first '-' (`locale.split('-')[0]`), or all of it. */
  function PrimarySubtag(locale: string): (p: string)
    ensures p <= locale
    ensures '-' !in p
    ensures |p| < |locale| ==> locale[|p|] == '-'
  {
    if locale == [] || locale[0] == '-' then [] else [locale[0]] + PrimarySubtag(locale[1..])
  }

  function LowerChar(c: char): char {
    if 'A' <= c <= 'Z' then (c as int + 32) as char else c
  }

  /** `toLowerCase` restricted to ASCII letters; every other character is kept. */
  function ToLowerAscii(s: string): (r: string)
    ensures |r| == |s|
    ensures forall i :: 0 <= i < |s| ==> r[i] == LowerChar(s[i])
  {
    if s == [] then [] else [LowerChar(s[0])] + ToLowerAscii(s[1..])
  }

  /** The lookup table used by detection; its entries map each code to the language of that code. */
  const LanguageMap: map<string, Language> :=
    map["hi" := Hi, "te" := Te, "ta" := Ta, "kn" := Kn, "ml" := Ml, "en" := En]

  /**
   * The language for a device locale: the lower-cased primary subtag if it is a supported
   * code, and the default language otherwise.
   */
  function DetectLanguageFromLocale(locale: string): (l: Language)
    ensures var code := ToLowerAscii(PrimarySubtag(locale));
      l.Code() == code || (code !in SupportedKeys && l == DefaultLanguage)
  {
    var code := ToLowerAscii(PrimarySubtag(locale));
    if code in LanguageMap then LanguageMap[code] else DefaultLanguage
  }

  /** Detection's table has exactly the supported keys, each mapped to the language it is the code of. */
  lemma LanguageMapMatchesTable()
    ensures forall k :: k in LanguageMap <==> k in SupportedKeys
    ensures forall k :: k in LanguageMap ==> LanguageMap[k].Code() == k
  {
  }

  lemma {:induction false} PrimarySubtagOfTagged(p: string, rest: string)
    requires '-' !in p
    ensures PrimarySubtag(p + "-" + rest) == p
  {
    if p != [] {
      assert (p + "-" + rest)[1..] == p[1..] + "-" + rest;
      PrimarySubtagOfTagged(p[1..], rest);
    }
  }

  /** Only the text before the first '-' matters: "hi-IN" is detected as "hi" is. */
  lemma DetectUsesPrimarySubtagOnly(p: string, rest: string)
    requires '-' !in p
    ensures DetectLanguageFromLocale(p + "-" + rest) == DetectLanguageFromLocale(p)
  {
    PrimarySubtagOfTagged(p, rest);
    assert PrimarySubtag(p) == p by { PrimarySubtagOfPlain(p); }
  }

  lemma {:induction false} PrimarySubtagOfPlain(p: string)
    requires '-' !in p
    ensures PrimarySubtag(p) == p
  {
    if p != [] {
      PrimarySubtagOfPlain(p[1..]);
    }
  }

  lemma {:induction false} PrimarySubtagCommutesWithLower(s: string)
    ensures PrimarySubtag(ToLowerAscii(s)) == ToLowerAscii(PrimarySubtag(s))
  {
    if s != [] && s[0] != '-' {
      var lowered := ToLowerAscii(s);
      assert lowered[0] == LowerChar(s[0]) != '-';
      assert lowered[1..] == ToLowerAscii(s[1..]);
      PrimarySubtagCommutesWithLower(s[1..]);
      var tail := PrimarySubtag(s[1..]);
      assert ([s[0]] + tail)[1..] == tail;
    }
  }

  lemma LowerIsIdempotent(s: string)
    ensures ToLowerAscii(ToLowerAscii(s)) == ToLowerAscii(s)
  {
  }

  /** Detection ignores the case of ASCII letters: "TA-in" is detected as "ta-in" is. */
  lemma DetectIgnoresCase(locale: string)
    ensures DetectLanguageFromLocale(ToLowerAscii(locale)) == DetectLanguageFromLocale(locale)
  {
    PrimarySubtagCommutesWithLower(locale);
    LowerIsIdempotent(PrimarySubtag(locale));
  }

  /** A supported code is detected as itself. */
  lemma DetectCode(l: Language)
    ensures DetectLanguageFromLocale(l.Code()) == l
  {
    var code := l.Code();
    PrimarySubtagOfPlain(code);
    assert ToLowerAscii(code) == code by {
      assert ToLowerAscii(code[1..]) == code[1..];
    }
  }

  /** Detecting a detected language changes nothing. */
  lemma DetectIsIdempotent(locale: string)
    ensures DetectLanguageFromLocale(DetectLanguageFromLocale(locale).Code()) == DetectLanguageFromLocale(locale)
  {
    DetectCode(DetectLanguageFromLocale(locale));
  }

  /** The examples of the source's own comment, and an unsupported locale. */
  lemma DetectExamples()
    ensures DetectLanguageFromLocale("hi-IN") == Hi
    ensures DetectLanguageFromLocale("TA-in") == Ta
    ensures DetectLanguageFromLocale("fr-FR") == En
    ensures DetectLanguageFromLocale("") == En
  {
    assert "hi-IN" == "hi" + "-" + "IN";
    assert "TA-in" == "TA" + "-" + "in";
    assert "fr-FR" == "fr" + "-" + "FR";
    PrimarySubtagOfTagged("hi", "IN");
    PrimarySubtagOfTagged("TA", "in");
    PrimarySubtagOfTagged("fr", "FR");
    assert ToLowerAscii("TA") == "ta";
    assert ToLowerAscii("fr") == "fr";
  }

  /** What the preference storage returned: the saved string (possibly none), or a failure. */
  datatype StorageRead = Loaded(saved: Option<string>) | ReadFailed

  /**
   * The language after the start-up load: a non-empty saved value that is a table key wins;
   * any other successful read falls back to detection; a failed read keeps the current one.
   */
  function LanguageAfterLoad(current: Language, read: StorageRead, deviceLocale: string): (r: Language)
    ensures read.ReadFailed? ==> r == current
    ensures read.Loaded? && read.saved.Some? && read.saved.value in SupportedKeys ==>
      r.Code() == read.saved.value
    ensures read.Loaded? && (read.saved.None? || read.saved.value !in SupportedKeys) ==>
      r == DetectLanguageFromLocale(deviceLocale)
  {
    match read
    case ReadFailed => current
    case Loaded(saved) =>
      if saved.Some? && saved.value != "" && FromKey(saved.value).Some? then FromKey(saved.value).value
      else DetectLanguageFromLocale(deviceLocale)
  }

  /** A language saved by `SetLanguage` is restored as that language on the next start. */
  lemma SavedLanguageIsRestored(l: Language, current: Language, deviceLocale: string)
    ensures LanguageAfterLoad(current, Loaded(Some(l.Code())), deviceLocale) == l
  {
    SupportedKeysAreTheSixCodes();
  }

  /** The provider's state: the language in use. */
  class LanguageProvider {
    var currentLanguage: Language

    /** A provider starts in the default language. */
    constructor ()
      ensures currentLanguage == DefaultLanguage
    {
      currentLanguage := DefaultLanguage;
    }

    /** The start-up load, given what storage returned and the device locale. */
    method LoadSavedLanguage(read: StorageRead, deviceLocale: string)
      modifies this
      ensures currentLanguage == LanguageAfterLoad(old(currentLanguage), read, deviceLocale)
    {
      match read {
        case ReadFailed =>
        case Loaded(saved) =>
          if saved.Some? && saved.value != "" && FromKey(saved.value).Some? {
            currentLanguage := FromKey(saved.value).value;
          } else {
            currentLanguage := DetectLanguageFromLocale(deviceLocale);
          }
      }
    }

    /** Store the choice first; the language changes only if the store succeeded. */
    method SetLanguage(language: Language, stored: bool)
      modifies this
      ensures stored ==> currentLanguage == language
      ensures !stored ==> currentLanguage == old(currentLanguage)
    {
      if stored {
        currentLanguage := language;
      }
    }

    /** Right-to-left layout flag: the table's `rtl` for the current language, false for all six. */
    function IsRTL(): (r: bool)
      reads this
      ensures !r
    {
      Info(currentLanguage).rtl
    }
  }
}

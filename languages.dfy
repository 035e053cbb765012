/**
 * The language tables of the app: the six supported languages with their display data,
 * the default language, and the prayer-category names in every language.
 */
module Languages {
  import opened Wrappers

  /** A key of the supported-languages table (the `SupportedLanguage` type). */
  datatype Language = En | Hi | Te | Ta | Kn | Ml {

    /** The table key, an ISO 639-1 code. */
    function Code(): string {
      match this
      case En => "en"
      case Hi => "hi"
      case Te => "te"
      case Ta => "ta"
      case Kn => "kn"
      case Ml => "ml"
    }
  }

  datatype LanguageInfo = LanguageInfo(name: string, nativeName: string, flag: string, rtl: bool)

  /** The keys of the supported-languages table, in declaration order. */
  const SupportedKeys: seq<string> := ["en", "hi", "te", "ta", "kn", "ml"]

  /** One row of the supported-languages table. */
  function Info(l: Language): (info: LanguageInfo)
    ensures !info.rtl
    ensures info.name != "" && info.nativeName != ""
    ensures l == En <==> info.name == info.nativeName
  {
    match l
    case En => LanguageInfo("English", "English", "🇺🇸", false)
    case Hi => LanguageInfo("Hindi", "हिन्दी", "🇮🇳", false)
    case Te => LanguageInfo("Telugu", "తెలుగు", "🇮🇳", false)
    case Ta => LanguageInfo("Tamil", "தமிழ்", "🇮🇳", false)
    case Kn => LanguageInfo("Kannada", "ಕನ್ನಡ", "🇮🇳", false)
    case Ml => LanguageInfo("Malayalam", "മലയാളം", "🇮🇳", false)
  }

  const DefaultLanguage: Language := En

  /**
   * Membership of a string among the table's own keys (`key in SUPPORTED_LANGUAGES`),
   * returning the language it names. The test is exact: no case folding, no trimming.
   */
  function FromKey(key: string): (r: Option<Language>)
    ensures r.Some? <==> key in SupportedKeys
    ensures r.Some? ==> r.value.Code() == key
  {
    if key == "en" then Some(En)
    else if key == "hi" then Some(Hi)
    else if key == "te" then Some(Te)
    else if key == "ta" then Some(Ta)
    else if key == "kn" then Some(Kn)
    else if key == "ml" then Some(Ml)
    else None
  }

  /** The prayer-category names shown for a language. */
  function PrayerCategories(l: Language): (categories: seq<string>)
    ensures |categories| == 7
  {
    match l
    case En => ["Spiritual Growth", "Financial Breakthrough", "Job Opportunities",
                "Marriage & Relationships", "Health & Healing", "Family & Children", "Other"]
    case Hi => ["आध्यात्मिक विकास", "वित्तीय सफलता", "नौकरी के अवसर",
                "विवाह और रिश्ते", "स्वास्थ्य और उपचार", "परिवार और बच्चे", "अन्य"]
    case Te => ["ఆధ్యాత్మిక వృద్ధి", "ఆర్థిక పురోగతి", "ఉద్యోగ అవకాశాలు",
                "వివాహం మరియు సంబంధాలు", "ఆరోగ్యం మరియు వైద్యం", "కుటుంబం మరియు పిల్లలు", "ఇతర"]
    case Ta => ["ஆன்மீக வளர்ச்சி", "நிதி முன்னேற்றம்", "வேலை வாய்ப்புகள்",
                "திருமணம் மற்றும் உறவுகள்", "உடல்நலம் மற்றும் குணப்படுத்துதல்",
                "குடும்பம் மற்றும் குழந்தைகள்", "மற்றவை"]
    case Kn => ["ಆಧ್ಯಾತ್ಮಿಕ ಬೆಳವಣಿಗೆ", "ಆರ್ಥಿಕ ಪ್ರಗತಿ", "ಉದ್ಯೋಗ ಅವಕಾಶಗಳು",
                "ಮದುವೆ ಮತ್ತು ಸಂಬಂಧಗಳು", "ಆರೋಗ್ಯ ಮತ್ತು ಚಿಕಿತ್ಸೆ", "ಕುಟುಂಬ ಮತ್ತು ಮಕ್ಕಳು", "ಇತರೆ"]
    case Ml => ["ആത്മീയ വളർച്ച", "സാമ്പത്തിക പുരോഗതി", "ജോലി അവസരങ്ങൾ",
                "വിവാഹവും ബന്ധങ്ങളും", "ആരോഗ്യവും രോഗശാന്തിയും", "കുടുംബവും കുട്ടികളും", "മറ്റുള്ളവ"]
  }

  /** Exactly six keys, pairwise distinct, and each key names the language whose code it is. */
  lemma SupportedKeysAreTheSixCodes()
    ensures |SupportedKeys| == 6
    ensures forall i, j :: 0 <= i < j < |SupportedKeys| ==> SupportedKeys[i] != SupportedKeys[j]
    ensures forall l: Language :: l.Code() in SupportedKeys && FromKey(l.Code()) == Some(l)
  {
  }

  /** No supported language is written right to left. */
  lemma NoLanguageIsRightToLeft(l: Language)
    ensures !Info(l).rtl
  {
  }

  /** The default language is English, and it is a key of the table. */
  lemma DefaultIsSupported()
    ensures DefaultLanguage.Code() == "en"
    ensures FromKey(DefaultLanguage.Code()) == Some(DefaultLanguage)
  {
  }

  /** Every language has a category list of seven pairwise distinct names. */
  lemma CategoryListsHaveSevenDistinctEntries(l: Language)
    ensures |PrayerCategories(l)| == 7
    ensures forall i, j :: 0 <= i < j < 7 ==> PrayerCategories(l)[i] != PrayerCategories(l)[j]
  {
  }

  /** The English list ends with "Other". */
  lemma EnglishEndsWithOther()
    ensures PrayerCategories(En)[6] == "Other"
  {
  }
}

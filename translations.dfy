/**
 * The interface strings of the advisory assistant, per language code, and the
 * lookup with its two fallbacks: an unknown language reads the English table,
 * and a key missing from the table read is returned as it is.
 */
module Translations {

  import opened Wrappers

  /** `TRANSLATIONS["en"]`, the English table, as a lookup: the entry for a key, or `None`. */
  function English(key: string): Option<string> {
    match key
    case "title" => Some("Digital Krishi Officer")
    case "location_label" => Some("Your Location (e.g., Thiruvananthapuram):")
    case "crop_label" => Some("Main Crop (e.g., Banana):")
    case "input_type" => Some("Input Method:")
    case "text" => Some("Text")
    case "voice" => Some("Voice")
    case "image" => Some("Image")
    case "query_label" => Some("Your Query (in English):")
    case "voice_transcript" => Some("Voice Transcript (manual entry):")
    case "upload_image" => Some("Upload Crop Image:")
    case "ask_button" => Some("Ask for Answer")
    case "response_label" => Some("Answer:")
    case "escalate_msg" => Some("Complex Query: Escalating to Local Officer.")
    case "feedback_label" => Some("Was this answer helpful?")
    case "yes" => Some("Yes")
    case "no" => Some("No")
    case "thanks" => Some("Thanks! Your feedback will improve the system.")
    case "system_prompt" => Some("You are a Digital Agri Officer. Answer farmers' questions in English. Consider location and season.")
    case _ => None
  }

  /** `TRANSLATIONS["hi"]`, the Hindi table. */
  function Hindi(key: string): Option<string> {
    match key
    case "title" => Some("डिजिटल कृषि अधिकारी")
    case "location_label" => Some("आपका स्थान (उदा., तिरुवनंतपुरम):")
    case "crop_label" => Some("मुख्य फसल (उदा., केला):")
    case "input_type" => Some("इनपुट विधि:")
    case "text" => Some("पाठ")
    case "voice" => Some("आवाज")
    case "image" => Some("छवि")
    case "query_label" => Some("आपका प्रश्न (हिंदी में):")
    case "voice_transcript" => Some("आवाज ट्रांसक्रिप्ट (मैनुअल एंट्री):")
    case "upload_image" => Some("फसल छवि अपलोड करें:")
    case "ask_button" => Some("उत्तर पूछें")
    case "response_label" => Some("उत्तर:")
    case "escalate_msg" => Some("जटिल प्रश्न: स्थानीय अधिकारी को बढ़ा रहा है।")
    case "feedback_label" => Some("क्या यह उत्तर सहायक था?")
    case "yes" => Some("हाँ")
    case "no" => Some("नहीं")
    case "thanks" => Some("धन्यवाद! आपका फीडबैक सिस्टम को बेहतर बनाएगा।")
    case "system_prompt" => Some("आप एक डिजिटल कृषि अधिकारी हैं। किसानों के सवालों का हिंदी में जवाब दें। स्थान और मौसम को ध्यान में रखें।")
    case _ => None
  }

  /** `TRANSLATIONS["ml"]`, the Malayalam table. */
  function Malayalam(key: string): Option<string> {
    match key
    case "title" => Some("ഡിജിറ്റൽ കൃഷി ഓഫീസർ")
    case "location_label" => Some("നിങ്ങളുടെ സ്ഥലം (ഉദാ., തിരുവനന്തപുരം):")
    case "crop_label" => Some("പ്രധാന ക്രോപ്പ് (ഉദാ., വാഴ):")
    case "input_type" => Some("ഇൻപുട്ട് രീതി:")
    case "text" => Some("ടെക്സ്റ്റ്")
    case "voice" => Some("വോയ്സ്")
    case "image" => Some("ഇമേജ്")
    case "query_label" => Some("നിങ്ങളുടെ ചോദ്യം (മലയാളത്തിൽ):")
    case "voice_transcript" => Some("വോയ്സ് ട്രാൻസ്ക്രിപ്റ്റ് (മാനുവൽ എൻട്രി):")
    case "upload_image" => Some("ക്രോപ്പ് ഇമേജ് അപ്ലോഡ് ചെയ്യുക:")
    case "ask_button" => Some("ഉത്തരം ചോദിക്കുക")
    case "response_label" => Some("ഉത്തരം:")
    case "escalate_msg" => Some("സങ്കീർണ്ണമായ ചോദ്യം: ലോക്കൽ ഓഫീസറിലേക്ക് എസ്കലേറ്റ് ചെയ്യുന്നു।")
    case "feedback_label" => Some("ഈ ഉത്തരം സഹായകരമായിരുന്നോ?")
    case "yes" => Some("അതെ")
    case "no" => Some("ഇല്ല")
    case "thanks" => Some("നന്ദി! നിങ്ങളുടെ ഫീഡ്ബാക്ക് സിസ്റ്റം മെച്ചപ്പെടുത്താൻ സഹായിക്കും।")
    case "system_prompt" => Some("നിങ്ങൾ ഒരു ഡിജിറ്റൽ കൃഷി ഓഫീസറാണ്. കർഷകരുടെ ചോദ്യങ്ങൾക്ക് മലയാളത്തിൽ ഉത്തരം നൽകുക. സ്ഥലം, സീസൺ എന്നിവ കണക്കിലെടുക്കുക.")
    case _ => None
  }

  /** `TRANSLATIONS["ta"]`, the Tamil table, which holds three entries only. */
  function Tamil(key: string): Option<string> {
    match key
    case "title" => Some("டிஜிட்டல் கிரிஷி அதிகாரி")
    case "location_label" => Some("உங்கள் இடம் (எ.கா., திருவனந்தபுரம்):")
    case "system_prompt" => Some("நீங்கள் ஒரு டிஜிட்டல் விவசாய அதிகாரி. விவசாயிகளின் கேள்விகளுக்கு தமிழில் பதில் கொடுங்கள்.")
    case _ => None
  }

  /** `TRANSLATIONS["te"]`, the Telugu table, which holds three entries only. */
  function Telugu(key: string): Option<string> {
    match key
    case "title" => Some("డిజిటల్ కృషి అధికారి")
    case "location_label" => Some("మీ స్థలం (ఉదా., తిరువనంతపురం):")
    case "system_prompt" => Some("మీరు ఒక డిజిటల్ కృషి అధికారి. రైతుల ప్రశ్నలకు తెలుగులో సమాధానం ఇవ్వండి.")
    case _ => None
  }

  /** The language codes `TRANSLATIONS` has a table for. */
  const Languages: set<string> := {"en", "hi", "ml", "ta", "te"}

  /** `TRANSLATIONS[lang].get(key)`: the entry of a known language's table, if it has one. */
  function Entry(lang: string, key: string): Option<string>
    requires lang in Languages
  {
    match lang
    case "en" => English(key)
    case "hi" => Hindi(key)
    case "ml" => Malayalam(key)
    case "ta" => Tamil(key)
    case "te" => Telugu(key)
  }

  /** The table `TRANSLATIONS.get(lang, TRANSLATIONS["en"])` selects. */
  function TableLanguage(lang: string): (t: string)
    ensures t in Languages
  {
    if lang in Languages then lang else "en"
  }

  /** `TRANSLATIONS.get(lang, TRANSLATIONS["en"]).get(key, key)`. */
  function GetTranslation(lang: string, key: string): (s: string)
    ensures s == key || Entry(TableLanguage(lang), key) == Some(s)
    ensures lang in Languages ==> s == key || Entry(lang, key) == Some(s)
  {
    match Entry(TableLanguage(lang), key)
    case Some(text) => text
    case None => key
  }

  /** A known language and a key in its table give that table's entry. */
  lemma KnownLanguageKnownKey(lang: string, key: string)
    requires lang in Languages && Entry(lang, key).Some?
    ensures GetTranslation(lang, key) == Entry(lang, key).value
  {
  }

  /** An unknown language code reads exactly as English. */
  lemma UnknownLanguageIsEnglish(lang: string, key: string)
    requires lang !in Languages
    ensures GetTranslation(lang, key) == GetTranslation("en", key)
  {
  }

  /** A key missing from the selected table comes back as the key itself, even when English has an entry for it. */
  lemma MissingKeyIsKey(lang: string, key: string)
    requires lang in Languages && Entry(lang, key).None?
    ensures GetTranslation(lang, key) == key
  {
  }

  /** Tamil and Telugu translate only the title, the location label and the system prompt; every other key echoes back. */
  lemma SparseTablesEcho(lang: string, key: string)
    requires lang == "ta" || lang == "te"
    requires key != "title" && key != "location_label" && key != "system_prompt"
    ensures GetTranslation(lang, key) == key
  {
  }

  /** The Tamil table has no crop label, so the key comes back rather than the English label. */
  lemma TamilCropLabelEchoes()
    ensures GetTranslation("ta", "crop_label") == "crop_label"
    ensures English("crop_label") == Some("Main Crop (e.g., Banana):")
  {
  }
}

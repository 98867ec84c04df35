/**
 * The report translation service (backend/services/translation_service.py):
 * text translation with a process-wide cache, the fixed status-label table,
 * and the report rewrite. The Translation API call is an input
 * (`TranslationResponse`), Python's `hash` a parameter of the translator,
 * and the API key's presence a flag.
 */
module Translation {
  import opened Wrappers
  import ModelInference

  /** The languages offered to farmers, by code. */
  const SupportedLanguages: map<string, string> := map[
    "en" := "English",
    "hi" := "हिंदी (Hindi)",
    "ta" := "தமிழ் (Tamil)",
    "te" := "తెలుగు (Telugu)",
    "kn" := "ಕನ್ನಡ (Kannada)",
    "ml" := "മലയാളം (Malayalam)",
    "mr" := "मराठी (Marathi)",
    "gu" := "ગુજરાતી (Gujarati)",
    "pa" := "ਪੰਜਾਬੀ (Punjabi)",
    "bn" := "বাংলা (Bengali)"
  ]

  /** The per-language names of the three status labels the table knows. */
  const StatusTranslations: map<string, map<string, string>> := map[
    "hi" := map["Safe" := "सुरक्षित", "Caution" := "सावधानी", "High Risk" := "उच्च जोखिम"],
    "ta" := map["Safe" := "பாதுகாப்பானது", "Caution" := "எச்சரிக்கை", "High Risk" := "அதிக ஆபத்து"],
    "te" := map["Safe" := "సురక్షితం", "Caution" := "జాగ్రత్త", "High Risk" := "అధిక ప్రమాదం"],
    "kn" := map["Safe" := "ಸುರಕ್ಷಿತ", "Caution" := "ಎಚ್ಚರಿಕೆ", "High Risk" := "ಹೆಚ್ಚಿನ ಅಪಾಯ"],
    "ml" := map["Safe" := "സുരക്ഷിതം", "Caution" := "മുന്നറിയിപ്പ്", "High Risk" := "ഉയർന്ന അപകടം"],
    "mr" := map["Safe" := "सुरक्षित", "Caution" := "सावधगिरी", "High Risk" := "उच्च धोका"],
    "gu" := map["Safe" := "સુરક્ષિત", "Caution" := "સાવધાની", "High Risk" := "ઉચ્ચ જોખમ"],
    "pa" := map["Safe" := "ਸੁਰੱਖਿਅਤ", "Caution" := "ਸਾਵਧਾਨੀ", "High Risk" := "ਉੱਚ ਜੋਖਮ"],
    "bn" := map["Safe" := "নিরাপদ", "Caution" := "সতর্কতা", "High Risk" := "উচ্চ ঝুঁকি"]
  ]

  /** `get_supported_languages`. */
  function GetSupportedLanguages(): (languages: map<string, string>)
    ensures languages.Keys == {"en", "hi", "ta", "te", "kn", "ml", "mr", "gu", "pa", "bn"}
    ensures languages["en"] == "English"
  {
    SupportedLanguages
  }

  /** `SUPPORTED_LANGUAGES.get(code, code)`. */
  function LanguageName(code: string): (name: string)
    ensures code in SupportedLanguages ==> name == SupportedLanguages[code]
    ensures code !in SupportedLanguages ==> name == code
  {
    if code in SupportedLanguages then SupportedLanguages[code] else code
  }

  /** The translated status label, when the language and the label are both in the table. */
  function StatusLabel(target: string, status: string): (r: Option<string>)
    ensures r.Some? <==> target in StatusTranslations && status in StatusTranslations[target]
    ensures r.Some? ==> r.value == StatusTranslations[target][status]
  {
    if target in StatusTranslations && status in StatusTranslations[target] then
      Some(StatusTranslations[target][status])
    else
      None
  }

  /** The table covers every offered language except English, each with exactly the three labels. */
  lemma StatusTableShape()
    ensures forall l :: l in StatusTranslations <==> l in SupportedLanguages && l != "en"
    ensures forall l :: l in StatusTranslations ==> StatusTranslations[l].Keys == {"Safe", "Caution", "High Risk"}
  {
    forall l | l in StatusTranslations
      ensures StatusTranslations[l].Keys == {"Safe", "Caution", "High Risk"}
    {
      StatusLabelsOf(l);
    }
  }

  lemma StatusLabelsOf(l: string)
    requires l in StatusTranslations
    ensures StatusTranslations[l].Keys == {"Safe", "Caution", "High Risk"}
  {
    if l == "hi" {
    } else if l == "ta" {
    } else if l == "te" {
    } else if l == "kn" {
    } else if l == "ml" {
    } else if l == "mr" {
    } else if l == "gu" {
    } else if l == "pa" {
    } else {
      assert l == "bn";
    }
  }

  /**
   * Of the statuses the spoilage service produces, only "Safe" is in the
   * table: "Warning" and "Critical" (and "Unknown") pass through untranslated.
   */
  lemma OnlySafeIsTranslated(target: string, risk: real)
    requires target in StatusTranslations
    ensures StatusLabel(target, ModelInference.StatusName(ModelInference.StatusOf(risk))).Some?
            <==> ModelInference.StatusOf(risk) == ModelInference.Safe
    ensures StatusLabel(target, "Warning") == None && StatusLabel(target, "Critical") == None
    ensures StatusLabel(target, "Unknown") == None
  {
    StatusTableShape();
  }

  /** A report dictionary. Values that are dictionaries are shared references, as in Python. */
  class Dict {
    var items: map<string, Value>

    constructor(items: map<string, Value>)
      ensures this.items == items
    {
      this.items := items;
    }
  }

  datatype Value = Str(s: string) | Obj(d: Dict) | Num(r: real)

  /** The dictionary held under "risk_analysis", which the status rewrite changes in place. */
  function RiskAnalysis(items: map<string, Value>): set<Dict> {
    if "risk_analysis" in items && items["risk_analysis"].Obj? then {items["risk_analysis"].d} else {}
  }

  /** The "risk_analysis" dictionary's items after the status rewrite. */
  function RewriteStatus(items: map<string, Value>, target: string): (r: map<string, Value>)
    ensures r.Keys == items.Keys
    ensures forall k :: k in items && k != "status" ==> r[k] == items[k]
    ensures "status" in items && items["status"].Str? && StatusLabel(target, items["status"].s).Some? ==>
      r["status"] == Str(StatusLabel(target, items["status"].s).value)
    ensures "status" in items && !(items["status"].Str? && StatusLabel(target, items["status"].s).Some?) ==>
      r["status"] == items["status"]
  {
    if "status" in items && items["status"].Str? && StatusLabel(target, items["status"].s).Some? then
      items["status" := Str(StatusLabel(target, items["status"].s).value)]
    else
      items
  }

  /** The copy's items: the translated insight when there is one, then "language" and "language_name". */
  function TranslatedItems(items: map<string, Value>, target: string, insight: string): map<string, Value> {
    var withInsight := if "agent_insight" in items then items["agent_insight" := Str(insight)] else items;
    withInsight["language" := Str(target)]["language_name" := Str(LanguageName(target))]
  }

  /** Only "agent_insight", "language" and "language_name" differ from the original report. */
  lemma TranslatedItemsShape(items: map<string, Value>, target: string, insight: string)
    ensures var r := TranslatedItems(items, target, insight);
      && r.Keys == items.Keys + {"language", "language_name"}
      && (forall k :: k in items && k != "agent_insight" && k != "language" && k != "language_name" ==> r[k] == items[k])
      && ("agent_insight" in items ==> r["agent_insight"] == Str(insight))
      && r["language"] == Str(target)
      && r["language_name"] == Str(LanguageName(target))
  {
  }

  /** The last two assignments of `translate_report`. */
  method AddLanguage(translated: Dict, target: string)
    modifies translated
    ensures translated.items == old(translated.items)["language" := Str(target)]["language_name" := Str(LanguageName(target))]
  {
    translated.items := translated.items["language" := Str(target)];
    translated.items := translated.items["language_name" := Str(LanguageName(target))];
  }

  /** The Translation API's answer: the "translations" list, a response without one, or an exception. */
  datatype TranslationResponse = Translations(texts: seq<string>) | Unexpected | Raised

  /** The cache key `f"{hash(text)}:{target}"`, as the pair it is built from. */
  type CacheKey = (int, string)

  /** What one call of `translate_text` returns and does to the cache. */
  predicate TextOutcome(cache0: map<CacheKey, string>, cache1: map<CacheKey, string>, key: CacheKey, hasApiKey: bool,
                        text: string, target: string, response: TranslationResponse, r: string)
  {
    if target == "en" then r == text && cache1 == cache0
    else if key in cache0 then r == cache0[key] && cache1 == cache0
    else if hasApiKey && response.Translations? && |response.texts| > 0 then
      r == response.texts[0] && cache1 == cache0[key := r]
    else r == text && cache1 == cache0
  }

  /** The status rewrite of `translate_report`, in place on the "risk_analysis" dictionary. */
  method TranslateStatus(riskAnalysis: Dict, target: string)
    modifies riskAnalysis
    ensures riskAnalysis.items == RewriteStatus(old(riskAnalysis.items), target)
  {
    if "status" in riskAnalysis.items {
      var status := riskAnalysis.items["status"];
      if target in StatusTranslations && status.Str? && status.s in StatusTranslations[target] {
        riskAnalysis.items := riskAnalysis.items["status" := Str(StatusTranslations[target][status.s])];
      }
    }
  }

  class Translator {
    var cache: map<CacheKey, string>
    const hash: string -> int
    const hasApiKey: bool

    constructor(hash: string -> int, hasApiKey: bool)
      ensures cache == map[] && this.hash == hash && this.hasApiKey == hasApiKey
    {
      cache := map[];
      this.hash := hash;
      this.hasApiKey := hasApiKey;
    }

    /**
     * `translate_text`: English is returned as is; a cached translation is
     * returned without a call; a successful call is cached; a missing key, a
     * response without translations or an exception gives the text back.
     */
    method TranslateText(text: string, target: string, response: TranslationResponse) returns (r: string)
      modifies this
      ensures TextOutcome(old(cache), cache, (hash(text), target), hasApiKey, text, target, response, r)
    {
      if target == "en" {
        return text;
      }
      var cacheKey := (hash(text), target);
      if cacheKey in cache {
        return cache[cacheKey];
      }
      if !hasApiKey {
        return text;
      }
      if response.Translations? && |response.texts| > 0 {
        var translated := response.texts[0];
        cache := cache[cacheKey := translated];
        return translated;
      }
      return text;
    }

    /** The "agent_insight" step of `translate_report`, on the copy. */
    method TranslateInsight(translated: Dict, target: string, response: TranslationResponse)
      requires "agent_insight" in translated.items ==> translated.items["agent_insight"].Str?
      modifies this, translated
      ensures "agent_insight" !in old(translated.items) ==> translated.items == old(translated.items) && cache == old(cache)
      ensures "agent_insight" in old(translated.items) ==>
        && "agent_insight" in translated.items && translated.items["agent_insight"].Str?
        && translated.items == old(translated.items)["agent_insight" := translated.items["agent_insight"]]
        && var text := old(translated.items)["agent_insight"].s;
           TextOutcome(old(cache), cache, (hash(text), target), hasApiKey, text, target, response,
                       translated.items["agent_insight"].s)
    {
      if "agent_insight" in translated.items {
        var insight := TranslateText(translated.items["agent_insight"].s, target, response);
        translated.items := translated.items["agent_insight" := Str(insight)];
      }
    }

    /**
     * `translate_report`: English returns the very same report. Otherwise the
     * result is a fresh shallow copy with "agent_insight" translated when
     * present, "language" and "language_name" added, and the status inside
     * "risk_analysis" rewritten in the shared dictionary, so the caller's
     * report sees that rewrite too.
     */
    method TranslateReport(report: Dict, target: string, response: TranslationResponse) returns (result: Dict)
      requires "agent_insight" in report.items ==> report.items["agent_insight"].Str?
      modifies this, RiskAnalysis(report.items)
      ensures target == "en" ==> result == report && cache == old(cache) && report.items == old(report.items)
      ensures target == "en" ==> forall d :: d in old(RiskAnalysis(report.items)) ==> d.items == old(d.items)
      ensures target != "en" ==>
        && fresh(result)
        && (forall d :: d in old(RiskAnalysis(report.items)) ==> d.items == RewriteStatus(old(d.items), target))
      ensures target != "en" && "agent_insight" !in old(report.items) ==>
        result.items == TranslatedItems(old(report.items), target, "") && cache == old(cache)
      ensures target != "en" && "agent_insight" in old(report.items) ==>
        && "agent_insight" in result.items && result.items["agent_insight"].Str?
        && result.items == TranslatedItems(old(report.items), target, result.items["agent_insight"].s)
        && var text := old(report.items)["agent_insight"].s;
           TextOutcome(old(cache), cache, (hash(text), target), hasApiKey, text, target, response,
                       result.items["agent_insight"].s)
    {
      if target == "en" {
        return report;
      }
      ghost var items0 := report.items;
      ghost var risk := RiskAnalysis(report.items);
      result := new Dict(report.items);
      TranslateInsight(result, target, response);
      ghost var items1 := result.items;
      if "risk_analysis" in result.items && result.items["risk_analysis"].Obj? {
        var riskAnalysis := result.items["risk_analysis"].d;
        assert risk == {riskAnalysis} && riskAnalysis != result;
        TranslateStatus(riskAnalysis, target);
      }
      assert result.items == items1;
      ghost var insight := if "agent_insight" in items0 then result.items["agent_insight"].s else "";
      AddLanguage(result, target);
      assert result.items == TranslatedItems(items0, target, insight);
    }
  }

  /**
   * The shallow copy shares "risk_analysis": translating a report with a
   * "Safe" status to Hindi rewrites the status the caller's report holds.
   */
  method StatusRewriteIsShared(translator: Translator, report: Dict, riskAnalysis: Dict, response: TranslationResponse)
    returns (result: Dict)
    requires report != riskAnalysis
    requires "agent_insight" in report.items ==> report.items["agent_insight"].Str?
    requires "risk_analysis" in report.items && report.items["risk_analysis"] == Obj(riskAnalysis)
    requires "status" in riskAnalysis.items && riskAnalysis.items["status"] == Str("Safe")
    modifies translator, riskAnalysis
    ensures result != report
    ensures "risk_analysis" in report.items && report.items["risk_analysis"] == Obj(riskAnalysis)
    ensures "risk_analysis" in result.items && result.items["risk_analysis"] == Obj(riskAnalysis)
    ensures "status" in riskAnalysis.items && riskAnalysis.items["status"] == Str(StatusTranslations["hi"]["Safe"])
  {
    result := translator.TranslateReport(report, "hi", response);
  }

  /** Once a translation has been cached, translating the same text again returns it without a call. */
  method TranslateTwice(translator: Translator, text: string, target: string, first: TranslationResponse,
                        second: TranslationResponse)
    returns (r1: string, r2: string)
    requires target != "en" && translator.hasApiKey && first.Translations? && |first.texts| > 0
    modifies translator
    ensures r2 == r1
    ensures (translator.hash(text), target) !in old(translator.cache) ==> r1 == first.texts[0]
  {
    r1 := translator.TranslateText(text, target, first);
    r2 := translator.TranslateText(text, target, second);
  }
}

/** The language-code lookup in `SpeechToTextService.transcribe`
    (backend/app/services/speech_to_text.py). */
module SpeechToText {
  import opened Strings

  /** `LANGUAGE_CODES`. */
  const LanguageCodes: map<string, string> := map[
    "spanish" := "es",
    "french" := "fr",
    "german" := "de",
    "italian" := "it",
    "portuguese" := "pt",
    "japanese" := "ja",
    "korean" := "ko",
    "chinese" := "zh",
    "russian" := "ru",
    "arabic" := "ar",
    "hindi" := "hi",
    "english" := "en"
  ]

  /** `language[:2]`: at most the first two characters. */
  function FirstTwo(language: string): (r: string)
    ensures |r| == if |language| < 2 then |language| else 2
    ensures r <= language
  {
    if |language| < 2 then language else language[..2]
  }

  /** `LANGUAGE_CODES.get(language.lower(), language[:2].lower())`. */
  function LanguageCode(language: string): (code: string)
    ensures Lower(language) in LanguageCodes ==> code == LanguageCodes[Lower(language)]
    ensures Lower(language) !in LanguageCodes ==> code == Lower(FirstTwo(language))
  {
    var key := Lower(language);
    if key in LanguageCodes then LanguageCodes[key] else Lower(FirstTwo(language))
  }

  // ---------------------------------------------------------------------------
  // Properties

  /** The table covers exactly the twelve listed names, and every code is
      two letters. */
  lemma TableShape()
    ensures LanguageCodes.Keys == {"spanish", "french", "german", "italian", "portuguese", "japanese",
                                   "korean", "chinese", "russian", "arabic", "hindi", "english"}
    ensures forall k :: k in LanguageCodes ==> |LanguageCodes[k]| == 2
  {
  }

  /** The lookup ignores the case of the name, for table names and for the
      fallback alike. */
  lemma CaseInsensitive(language: string)
    ensures LanguageCode(Lower(language)) == LanguageCode(language)
  {
    LowerIdempotent(language);
    if |language| >= 2 {
      LowerPrefix(language, 2);
      LowerIdempotent(language[..2]);
    }
  }

  /** A code is at most two characters, and exactly two for names of two or
      more characters. */
  lemma CodeLength(language: string)
    ensures |LanguageCode(language)| <= 2
    ensures |language| >= 2 ==> |LanguageCode(language)| == 2
  {
    TableShape();
  }

  /** The names whose code is not their own first two letters. */
  const Renamed: set<string> := {"spanish", "german", "portuguese", "chinese"}

  lemma FirstTwoLower(language: string)
    ensures Lower(FirstTwo(language)) == FirstTwo(Lower(language))
  {
    if |language| >= 2 {
      LowerPrefix(language, 2);
    }
  }

  /** The table matters for exactly four names: for every name, the code
      differs from the lower-cased first two letters exactly when the name
      is, in any case, "spanish", "german", "portuguese" or "chinese". */
  lemma TableOverridesFallback(language: string)
    ensures LanguageCode(language) != Lower(FirstTwo(language)) <==> Lower(language) in Renamed
  {
    FirstTwoLower(language);
    var key := Lower(language);
    TableShape();
    if key in LanguageCodes {
      assert |key| >= 2;
      if key == "spanish" {
        assert key[..2] == "sp";
      } else if key == "french" {
        assert key[..2] == "fr";
      } else if key == "german" {
        assert key[..2] == "ge";
      } else if key == "italian" {
        assert key[..2] == "it";
      } else if key == "portuguese" {
        assert key[..2] == "po";
      } else if key == "japanese" {
        assert key[..2] == "ja";
      } else if key == "korean" {
        assert key[..2] == "ko";
      } else if key == "chinese" {
        assert key[..2] == "ch";
      } else if key == "russian" {
        assert key[..2] == "ru";
      } else if key == "arabic" {
        assert key[..2] == "ar";
      } else if key == "hindi" {
        assert key[..2] == "hi";
      } else if key == "english" {
        assert key[..2] == "en";
      }
    }
  }
}

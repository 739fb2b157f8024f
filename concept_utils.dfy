/**
 * The convenience helpers of the utilities package: building a concept
 * URI with a fallback to English, validating and normalising a term and
 * its language in one report, and the choice of logging set-up for an
 * environment.
 */
module ConceptUtils {
  import opened JsonValues
  import opened Strings
  import opened Errors
  import opened TextUtils

  /** The message of the ConceptNetMCPError that wraps a failure. */
  function UriFailureMessage(term: string, e: Raised): string
  {
    "Failed to create URI for term '" + term + "': " + ExceptionText(e)
  }

  /** `create_safe_concept_uri(term, language)`: construct_concept_uri with
    * its defaults; an invalid language retries with English; every other
    * failure, and a failure of the retry, becomes a CONCEPT_URI_INVALID
    * error. */
  function CreateSafeConceptUri(term: string, language: string): (r: Result<string>)
    ensures r.Ok? ==> StartsWith(r.value, "/c/")
    ensures r.Ok? ==> r == ConstructConceptUri(term, language, true, true)
                      || (ConstructConceptUri(term, language, true, true).Err?
                          && ConstructConceptUri(term, language, true, true).error.InvalidLanguage?
                          && r == ConstructConceptUri(term, "en", true, true))
    ensures r.Err? ==> r.error.Base? && r.error.code == ConceptUriInvalid
    ensures ConstructConceptUri(term, language, true, true).Ok? ==> r == ConstructConceptUri(term, language, true, true)
  {
    match ConstructConceptUri(term, language, true, true)
    case Ok(uri) => Ok(uri)
    case Err(e) =>
      if e.InvalidLanguage? then
        match ConstructConceptUri(term, "en", true, true)
        case Ok(uri) => Ok(uri)
        case Err(e2) => Err(Base(UriFailureMessage(term, e2), ConceptUriInvalid))
      else Err(Base(UriFailureMessage(term, e), ConceptUriInvalid))
  }

  /** An unknown language falls back to the English URI of the term. */
  lemma UnknownLanguageFallsBackToEnglish(term: string, language: string)
    requires Strip(term) != "" && NormalizeLanguageCode(language).Err?
    requires NormalizeConcept(term, "en").Ok? && NormalizeConcept(term, "en").value != ""
    ensures CreateSafeConceptUri(term, language) == Ok("/c/en/" + NormalizeConcept(term, "en").value)
  {
    assert term != "";
    EnglishConstructs(term);
  }

  /** A blank term fails whatever the language. */
  lemma BlankTermFails(term: string, language: string)
    requires Strip(term) == ""
    ensures CreateSafeConceptUri(term, language).Err?
  {
  }

  /** The report `validate_and_normalize_concept` returns. */
  datatype ConceptReport = ConceptReport(
    originalTerm: string, originalLanguage: string, isValid: bool,
    normalizedTerm: Option<string>, normalizedLanguage: Option<string>, conceptUri: Option<string>,
    errors: seq<string>, warnings: seq<string>)

  /** The language step: the normalised code, or English with an error
    * note and a warning. */
  function LanguageStep(language: string): (r: (string, seq<string>, seq<string>))
    ensures r.0 in ExtendedLanguageCodes
    ensures NormalizeLanguageCode(language).Ok? ==> r == (NormalizeLanguageCode(language).value, [], [])
    ensures NormalizeLanguageCode(language).Err? ==> r.0 == "en" && |r.1| == 1
                                                     && r.2 == ["Fell back to English language"]
  {
    match NormalizeLanguageCode(language)
    case Ok(code) => (code, [], [])
    case Err(e) =>
      assert "en" in ExtendedLanguageCodes by { EnglishIsValid(); }
      ("en", ["Invalid language: " + ExceptionText(e)], ["Fell back to English language"])
  }

  /** `validate_and_normalize_concept(term, language)`: normalise the
    * language (falling back to English), then the term, then build the URI.
    * A ValidationError from the term propagates; a failed URI becomes a
    * ValidationError for `concept_uri`; any other failure one for
    * `concept_validation`. */
  function ValidateAndNormalizeConcept(term: string, language: string): (r: Result<ConceptReport>)
    ensures r.Err? ==> r.error.Validation?
    ensures r.Ok? ==> r.value.isValid && r.value.originalTerm == term && r.value.originalLanguage == language
    ensures r.Ok? ==> r.value.normalizedTerm.Some? && r.value.normalizedLanguage.Some? && r.value.conceptUri.Some?
    ensures r.Ok? ==> r.value.normalizedLanguage.value in ExtendedLanguageCodes
    ensures r.Ok? ==> (r.value.warnings != [] <==> NormalizeLanguageCode(language).Err?)
    ensures r.Ok? ==> (r.value.errors != [] <==> NormalizeLanguageCode(language).Err?)
    ensures r.Ok? ==> ConstructConceptUri(r.value.normalizedTerm.value, r.value.normalizedLanguage.value, true, true)
                      == Ok(r.value.conceptUri.value)
    ensures r.Ok? ==> StartsWith(r.value.conceptUri.value, "/c/")
    ensures r.Ok? ==>
      && r.value.normalizedLanguage == Some(LanguageStep(language).0)
      && r.value.errors == LanguageStep(language).1
      && r.value.warnings == LanguageStep(language).2
      && NormalizeConcept(term, LanguageStep(language).0).Ok?
      && r.value.normalizedTerm == Some(NormalizeConcept(term, LanguageStep(language).0).value)
    ensures r.Ok? && NormalizeLanguageCode(language).Err? ==> r.value.normalizedLanguage == Some("en")
  {
    var (lang, errors, warnings) := LanguageStep(language);
    match NormalizeConcept(term, lang)
    case Err(e) =>
      if e.Validation? then Err(e) else Err(Validation("concept_validation", "valid concept"))
    case Ok(t) =>
      match ConstructConceptUri(t, lang, true, true)
      case Err(_) => Err(Validation("concept_uri", "valid URI components"))
      case Ok(uri) => Ok(ConceptReport(term, language, true, Some(t), Some(lang), Some(uri), errors, warnings))
  }

  /** A validated report's URI is `/c/{language}/{t}` for the normalised
    * language, and the normalised term has the concept shape. */
  lemma ReportUriShape(term: string, language: string)
    requires ValidateAndNormalizeConcept(term, language).Ok?
    ensures var rep := ValidateAndNormalizeConcept(term, language).value;
      var lang := rep.normalizedLanguage.value;
      ConceptForm(rep.normalizedTerm.value) && rep.normalizedTerm.value != ""
      && StartsWith(rep.conceptUri.value, "/c/" + lang + "/")
  {
    var (lang, errors, warnings) := LanguageStep(language);
    var t := NormalizeConcept(term, lang).value;
    var uri := ConstructConceptUri(t, lang, true, true).value;
    assert ValidateAndNormalizeConcept(term, language)
        == Ok(ConceptReport(term, language, true, Some(t), Some(lang), Some(uri), errors, warnings));
    NormalizeConceptTextOutcome(term, lang, None, false, false);
    KnownCodeIsValid(lang);
    UriUnderLanguage(t, lang, uri);
  }

  /** A blank term is never a valid concept, whatever the language: its
    * normalised form is empty (or too long), and no URI is built from it. */
  lemma BlankTermInvalid(term: string, language: string)
    requires Strip(term) == ""
    ensures ValidateAndNormalizeConcept(term, language).Err?
  {
    var lang := LanguageStep(language).0;
    KnownCodeIsValid(lang);
    NormalizeConceptTextOutcome(term, lang, None, false, false);
  }

  /** A URI built for a normalised language code lies under that code. */
  lemma UriUnderLanguage(t: string, lang: string, uri: string)
    requires NormalizeLanguageCode(lang) == Ok(lang)
    requires ConstructConceptUri(t, lang, true, true) == Ok(uri)
    ensures t != "" && StartsWith(uri, "/c/" + lang + "/")
  {
    var t2 := ConstructTerm(t, lang, true, true).value;
    assert uri == "/c/" + lang + "/" + t2;
    assert uri[..|"/c/" + lang + "/"|] == "/c/" + lang + "/";
  }

  datatype LoggingSetup = Production(logFile: string) | Development

  /** The decision in `setup_logging_for_environment`: production logging
    * (which needs a log file) when the environment is "production" in any
    * case, development logging otherwise. */
  function LoggingForEnvironment(environment: string, logFile: Option<string>): (r: Result<LoggingSetup>)
    ensures Lower(environment) != "production" ==> r == Ok(Development)
    ensures Lower(environment) == "production" ==>
      (r.Err? <==> logFile.None? || logFile.value == "")
      && (r.Ok? ==> r.value == Production(logFile.value))
  {
    if Lower(environment) == "production" then
      if logFile.None? || logFile.value == "" then Err(ValueErr("log_file is required for production environment"))
      else Ok(Production(logFile.value))
    else Ok(Development)
  }

  /** The environment name is compared without regard to ASCII case. */
  lemma EnvironmentCaseInsensitive(log: string)
    requires log != ""
    ensures LoggingForEnvironment("Production", Some(log)) == Ok(Production(log))
    ensures LoggingForEnvironment("PRODUCTION", None).Err?
  {
    assert Lower("Production") == "production";
    assert Lower("PRODUCTION") == "production";
  }
}

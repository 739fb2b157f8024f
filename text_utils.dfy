/**
 * Concept text normalisation, `/c/{language}/{term}` URIs, language codes
 * and display text (utils/text_utils.py). Every regular-expression pass is
 * written out as a character-level rewrite; the Unicode tables it consults
 * (NFC, case mappings outside ASCII, `\w` outside ASCII) stay uninterpreted
 * in the Strings module.
 */
module TextUtils {
  import opened JsonValues
  import opened Strings
  import opened Errors

  // ---------------------------------------------------------------------
  // Limits and tables
  // ---------------------------------------------------------------------

  const MaxConceptLength := 200
  const MaxUriLength := 500
  const MaxTextLength := 1000

  /** The ISO 639-1 codes ConceptNet serves, one set written as six rows of
    * ten so that facts about it can be proved row by row. */
  const SupportedLanguages: set<string> :=
    SupportedRow1 + SupportedRow2 + SupportedRow3 + SupportedRow4 + SupportedRow5 + SupportedRow6
  const SupportedRow1: set<string> := { "af", "ar", "be", "bg", "bn", "ca", "cs", "cy", "da", "de" }
  const SupportedRow2: set<string> := { "el", "en", "eo", "es", "et", "eu", "fa", "fi", "fr", "ga" }
  const SupportedRow3: set<string> := { "gd", "gl", "he", "hi", "hr", "hu", "hy", "id", "is", "it" }
  const SupportedRow4: set<string> := { "ja", "ka", "ko", "la", "lt", "lv", "mk", "ms", "mt", "nl" }
  const SupportedRow5: set<string> := { "no", "pl", "pt", "ro", "ru", "sk", "sl", "sq", "sv", "sw" }
  const SupportedRow6: set<string> := { "ta", "te", "th", "tr", "uk", "ur", "vi", "zh" }

  /** English language names accepted in place of their codes. */
  const LanguageAliases: map<string, string> := map[
    "chinese" := "zh", "english" := "en", "spanish" := "es", "french" := "fr",
    "german" := "de", "italian" := "it", "portuguese" := "pt",
    "russian" := "ru", "japanese" := "ja", "korean" := "ko",
    "arabic" := "ar", "hindi" := "hi"
  ]

  /** The alias table's entries in the order it is iterated (its insertion order). */
  const AliasEntries: seq<(string, string)> := [
    ("chinese", "zh"), ("english", "en"), ("spanish", "es"), ("french", "fr"),
    ("german", "de"), ("italian", "it"), ("portuguese", "pt"), ("russian", "ru"),
    ("japanese", "ja"), ("korean", "ko"), ("arabic", "ar"), ("hindi", "hi")
  ]

  /** The supported codes and six regional variants. */
  const ExtendedLanguageCodes: set<string> := SupportedLanguages + RegionalCodes
  const RegionalCodes: set<string> := {"zh-cn", "zh-tw", "en-us", "en-gb", "pt-br", "es-es"}

  /** Readable text of the common relation URIs. */
  const RelationPatterns: map<string, string> := map[
    "/r/RelatedTo" := "related to", "/r/IsA" := "is a", "/r/PartOf" := "part of",
    "/r/HasA" := "has a", "/r/UsedFor" := "used for", "/r/CapableOf" := "capable of",
    "/r/AtLocation" := "at location", "/r/Causes" := "causes", "/r/HasSubevent" := "has subevent",
    "/r/HasFirstSubevent" := "has first subevent", "/r/HasLastSubevent" := "has last subevent",
    "/r/HasPrerequisite" := "has prerequisite", "/r/HasProperty" := "has property",
    "/r/MotivatedByGoal" := "motivated by goal", "/r/ObstructedBy" := "obstructed by",
    "/r/Desires" := "desires", "/r/CreatedBy" := "created by", "/r/Synonym" := "synonym",
    "/r/Antonym" := "antonym", "/r/DistinctFrom" := "distinct from", "/r/DerivedFrom" := "derived from",
    "/r/SymbolOf" := "symbol of", "/r/DefinedAs" := "defined as", "/r/MannerOf" := "manner of",
    "/r/LocatedNear" := "located near", "/r/HasContext" := "has context", "/r/SimilarTo" := "similar to",
    "/r/EtymologicallyRelatedTo" := "etymologically related to",
    "/r/EtymologicallyDerivedFrom" := "etymologically derived from",
    "/r/CausesDesire" := "causes desire", "/r/MadeOf" := "made of", "/r/ReceivesAction" := "receives action",
    "/r/NotCapableOf" := "not capable of", "/r/NotUsedFor" := "not used for",
    "/r/NotHasProperty" := "not has property"
  ]

  /** Every alias names a supported code, and the entries list the table. */
  lemma AliasTableConsistent()
    ensures forall a :: a in LanguageAliases ==> LanguageAliases[a] in SupportedLanguages
    ensures SupportedLanguages <= ExtendedLanguageCodes
  {
  }

  lemma AliasEntriesConsistent()
    ensures forall e :: e in AliasEntries ==> e.0 in LanguageAliases && LanguageAliases[e.0] == e.1
  {
    forall e | e in AliasEntries
      ensures e.0 in LanguageAliases && LanguageAliases[e.0] == e.1
    {
      var i :| 0 <= i < |AliasEntries| && AliasEntries[i] == e;
      if i < 6 {
        FirstAliasesConsistent(i);
      } else {
        LastAliasesConsistent(i);
      }
    }
  }

  lemma FirstAliasesConsistent(i: int)
    requires 0 <= i < 6
    ensures AliasEntries[i].0 in LanguageAliases && LanguageAliases[AliasEntries[i].0] == AliasEntries[i].1
  {
  }

  lemma LastAliasesConsistent(i: int)
    requires 6 <= i < |AliasEntries|
    ensures AliasEntries[i].0 in LanguageAliases && LanguageAliases[AliasEntries[i].0] == AliasEntries[i].1
  {
  }

  lemma AliasEntriesSupported()
    ensures forall e :: e in AliasEntries ==> e.1 in SupportedLanguages
  {
    AliasEntriesConsistent();
    AliasTableConsistent();
  }

  /** Two lower-case ASCII letters. */
  predicate TwoLetterCode(x: string)
  {
    |x| == 2 && IsAsciiLower(x[0]) && IsAsciiLower(x[1])
  }

  /** `xx-yy` in lower-case ASCII. */
  predicate RegionalCode(x: string)
  {
    && |x| == 5 && x[2] == '-'
    && IsAsciiLower(x[0]) && IsAsciiLower(x[1]) && IsAsciiLower(x[3]) && IsAsciiLower(x[4])
  }

  lemma SupportedRow1Shape()
    ensures forall x :: x in SupportedRow1 ==> TwoLetterCode(x)
  {
  }

  lemma SupportedRow2Shape()
    ensures forall x :: x in SupportedRow2 ==> TwoLetterCode(x)
  {
  }

  lemma SupportedRow3Shape()
    ensures forall x :: x in SupportedRow3 ==> TwoLetterCode(x)
  {
  }

  lemma SupportedRow4Shape()
    ensures forall x :: x in SupportedRow4 ==> TwoLetterCode(x)
  {
  }

  lemma SupportedRow5Shape()
    ensures forall x :: x in SupportedRow5 ==> TwoLetterCode(x)
  {
  }

  lemma SupportedRow6Shape()
    ensures forall x :: x in SupportedRow6 ==> TwoLetterCode(x)
  {
  }

  lemma SupportedShape()
    ensures forall x :: x in SupportedLanguages ==> TwoLetterCode(x)
  {
    SupportedRow1Shape();
    SupportedRow2Shape();
    SupportedRow3Shape();
    SupportedRow4Shape();
    SupportedRow5Shape();
    SupportedRow6Shape();
  }

  lemma RegionalShape()
    ensures forall x :: x in RegionalCodes ==> RegionalCode(x)
  {
  }

  /** The alias names are at least five characters long with a letter third. */
  lemma AliasShape()
    ensures forall a :: a in LanguageAliases ==> |a| >= 5 && IsAsciiLower(a[2])
  {
  }

  // ---------------------------------------------------------------------
  // Character classes used by the rewrites
  // ---------------------------------------------------------------------

  /** A space, a line feed. */
  predicate IsBlank(c: char) { c == ' ' }
  predicate NotBlank(c: char) { c != ' ' }
  predicate IsNewline(c: char) { c == '\n' }

  /** `[_-]`. */
  predicate IsSep(c: char) { c == '_' || c == '-' }

  /** `[\w\-_]`, the characters kept in a concept term. */
  predicate IsTermChar(c: char) { IsWordChar(c) || c == '-' }

  /** The shape of every normalised concept term: word characters only (so
    * no whitespace and no `-`), no two `_` in a row, and no `_` at either end. */
  predicate ConceptForm(s: string)
  {
    && (forall i :: 0 <= i < |s| ==> IsWordChar(s[i]))
    && NoAdjacent(s, IsSep)
    && (s != [] ==> !IsSep(s[0]) && !IsSep(s[|s| - 1]))
  }

  /** `normalize_unicode(text, 'NFC', strip_accents=...)`. */
  function NormalizeUnicode(text: string, stripAccents: bool): string
  {
    if text == "" then "" else if stripAccents then NfcWithoutMarks(text) else Nfc(text)
  }

  /** Steps 6 to 8 of the normalisation: drop what is not `[\w\-_]`,
    * collapse `[_-]+` to `_`, strip `_` and `-` at both ends. */
  function CleanTerm(s: string): (r: string)
  {
    StripBy(SubRuns(Filter(s, IsTermChar), IsSep, "_"), IsSep)
  }

  /** Whatever goes in, the cleaned term has the concept shape. */
  lemma CleanTermForm(s: string)
    ensures ConceptForm(CleanTerm(s))
  {
    var kept := Filter(s, IsTermChar);
    assert IsWordChar('_');
    SubRunsAll(kept, IsSep, "_", IsWordChar);
    SubRunsNoAdjacent(kept, IsSep, "_");
    var runs := SubRuns(kept, IsSep, "_");
    StripByAll(runs, IsSep, IsWordChar);
    StripByNoAdjacent(runs, IsSep, IsSep);
  }

  // ---------------------------------------------------------------------
  // normalize_concept_text and validate_text_length
  // ---------------------------------------------------------------------

  /** normalize_concept_text: reject over-long input and an invalid
    * language, then strip, NFC, lower-case, collapse whitespace to one
    * space, turn spaces into `_`, and clean the term. */
  function NormalizeConceptText(text: string, language: string, maxLength: Option<int>,
                                preserveUnderscores: bool, stripDiacritics: bool): (r: Result<string>)
  {
    var maxLen := if maxLength.Some? then maxLength.value else MaxConceptLength;
    if text == "" then Ok("")
    else if |text| > maxLen then Err(Validation("text", "text with maximum length " + IntToString(maxLen)))
    else if !ValidateLanguageCode(language) then Err(InvalidLanguage(language))
    else
      var stripped := Strip(text);
      if stripped == "" then Ok("")
      else
        var cleaned := NormalizedTerm(stripped, preserveUnderscores, stripDiacritics);
        if |cleaned| > maxLen then
          Err(Validation("normalized_text", "normalized text with maximum length " + IntToString(maxLen)))
        else Ok(cleaned)
  }

  /** Steps 2 to 8 of the normalisation on stripped, non-empty text: NFC,
    * lower case, whitespace runs to one space, spaces to `_`, and the
    * cleaning of the term. */
  function NormalizedTerm(stripped: string, preserveUnderscores: bool, stripDiacritics: bool): (r: string)
  {
    var lowered := Lower(NormalizeUnicode(stripped, stripDiacritics));
    var spaced := SubRuns(lowered, IsSpace, " ");
    var joined := if !preserveUnderscores then ReplaceChar(spaced, ' ', '_') else SubRuns(spaced, IsBlank, "_");
    CleanTerm(joined)
  }

  /** The normalised term always has the concept shape. */
  lemma NormalizedTermForm(stripped: string, preserveUnderscores: bool, stripDiacritics: bool)
    ensures ConceptForm(NormalizedTerm(stripped, preserveUnderscores, stripDiacritics))
  {
    var lowered := Lower(NormalizeUnicode(stripped, stripDiacritics));
    var spaced := SubRuns(lowered, IsSpace, " ");
    var joined := if !preserveUnderscores then ReplaceChar(spaced, ' ', '_') else SubRuns(spaced, IsBlank, "_");
    CleanTermForm(joined);
  }

  /** The outcome of normalize_concept_text: the two raised errors, the
    * empty result for blank text, and a result of the concept shape that
    * never exceeds the length limit. */
  lemma NormalizeConceptTextOutcome(text: string, language: string, maxLength: Option<int>,
                                    preserveUnderscores: bool, stripDiacritics: bool)
    ensures var maxLen := if maxLength.Some? then maxLength.value else MaxConceptLength;
      var r := NormalizeConceptText(text, language, maxLength, preserveUnderscores, stripDiacritics);
      && (text != "" && |text| > maxLen ==> r.Err? && r.error.Validation? && r.error.field == "text")
      && (text != "" && |text| <= maxLen && !ValidateLanguageCode(language) ==> r == Err(InvalidLanguage(language)))
      && (ValidateLanguageCode(language) && |text| <= maxLen && Strip(text) == "" ==> r == Ok(""))
      && (r.Ok? ==> ConceptForm(r.value) && (r.value == "" || |r.value| <= maxLen))
      && (r.Err? ==> r.error.Validation? || r.error.InvalidLanguage?)
  {
    NormalizedTermForm(Strip(text), preserveUnderscores, stripDiacritics);
  }

  /** normalize_concept_text with its defaults (English rules, 200 characters). */
  function NormalizeConcept(text: string, language: string): Result<string>
  {
    NormalizeConceptText(text, language, None, false, false)
  }

  /** validate_text_length: a ValidationError for the field exactly when the
    * text is longer than the limit. */
  function ValidateTextLength(text: string, maxLength: int, fieldName: string): (r: Option<Raised>)
    ensures r.Some? <==> |text| > maxLength
    ensures r.Some? ==> r.value.Validation? && r.value.field == fieldName
  {
    if |text| > maxLength then Some(Validation(fieldName, "text with maximum length " + IntToString(maxLength)))
    else None
  }

  // ---------------------------------------------------------------------
  // Language codes
  // ---------------------------------------------------------------------

  /** normalize_language_code: lower-case and strip, map an alias to its
    * code, and accept the result when it is a known code. */
  function NormalizeLanguageCode(language: string): (r: Result<string>)
    ensures r.Ok? ==> r.value in ExtendedLanguageCodes
    ensures r.Err? ==> r.error == InvalidLanguage(language)
  {
    if language == "" then Err(InvalidLanguage(language))
    else
      var normalized := Strip(Lower(language));
      var code := if normalized in LanguageAliases then LanguageAliases[normalized] else normalized;
      if code in ExtendedLanguageCodes then Ok(code)
      else if code in SupportedLanguages then Ok(code)
      else Err(InvalidLanguage(language))
  }

  /** validate_language_code with `raise_exception=False`. */
  predicate ValidateLanguageCode(language: string)
  {
    var normalized := Strip(Lower(language));
    && language != ""
    && 2 <= |normalized| <= 6
    && language == normalized
    && NormalizeLanguageCode(language).Ok?
  }

  /** A code is valid exactly when it is already lower-case and stripped,
    * two to six characters long, and a known code or an alias. */
  lemma ValidateLanguageCodeIff(c: string)
    ensures ValidateLanguageCode(c) <==>
      && c != ""
      && c == Strip(Lower(c))
      && 2 <= |c| <= 6
      && (c in ExtendedLanguageCodes || c in LanguageAliases)
  {
    if ValidateLanguageCode(c) {
      ValidCodeIsKnown(c);
    }
    if c != "" && c == Strip(Lower(c)) && 2 <= |c| <= 6 && (c in ExtendedLanguageCodes || c in LanguageAliases) {
      KnownNormalCodeIsValid(c);
    }
  }

  lemma ValidCodeIsKnown(c: string)
    requires ValidateLanguageCode(c)
    ensures c in ExtendedLanguageCodes || c in LanguageAliases
  {
    assert Strip(Lower(c)) == c;
  }

  lemma KnownNormalCodeIsValid(c: string)
    requires c != "" && c == Strip(Lower(c)) && 2 <= |c| <= 6
    requires c in ExtendedLanguageCodes || c in LanguageAliases
    ensures ValidateLanguageCode(c)
  {
    if c in LanguageAliases {
      AliasNormalizes(c);
    } else {
      CodeNormalizes(c);
    }
  }

  /** An alias already in normal form normalises to its code. */
  lemma AliasNormalizes(c: string)
    requires c != "" && c in LanguageAliases && c == Strip(Lower(c))
    ensures NormalizeLanguageCode(c) == Ok(LanguageAliases[c])
  {
    AliasTableConsistent();
    assert LanguageAliases[c] in ExtendedLanguageCodes;
  }

  /** A known code already in normal form that is no alias normalises to itself. */
  lemma CodeNormalizes(c: string)
    requires c != "" && c !in LanguageAliases && c in ExtendedLanguageCodes && c == Strip(Lower(c))
    ensures NormalizeLanguageCode(c) == Ok(c)
  {
  }

  /** A valid code normalises to itself or, for an alias, to its code. */
  lemma ValidCodeNormalizes(c: string)
    requires ValidateLanguageCode(c)
    ensures NormalizeLanguageCode(c) == Ok(if c in LanguageAliases then LanguageAliases[c] else c)
  {
  }

  /** The code a lower-cased, stripped language name stands for: its
    * alias's code, or the name itself. */
  function AliasTarget(normalized: string): string
  {
    if normalized in LanguageAliases then LanguageAliases[normalized] else normalized
  }

  /** For every input: a non-empty language succeeds exactly when lower-casing,
    * stripping and the alias table make a known code of it, and then gives
    * that code; a code obtained this way normalises to itself. */
  lemma NormalizeLanguageCodeRule(language: string)
    ensures var c := AliasTarget(Strip(Lower(language)));
      NormalizeLanguageCode(language)
        == (if language != "" && c in ExtendedLanguageCodes then Ok(c) else Err(InvalidLanguage(language)))
    ensures NormalizeLanguageCode(language).Ok? ==>
      NormalizeLanguageCode(NormalizeLanguageCode(language).value) == NormalizeLanguageCode(language)
  {
    AliasTableConsistent();
    if NormalizeLanguageCode(language).Ok? {
      KnownCodeIsValid(NormalizeLanguageCode(language).value);
    }
  }

  /** English, the fallback language everywhere, is valid. */
  lemma EnglishIsValid()
    ensures ValidateLanguageCode("en")
    ensures NormalizeLanguageCode("en") == Ok("en")
  {
    assert Lower("en") == "en";
    assert Strip("en") == "en" by {
      assert LStripBy("en", IsSpace) == "en";
      assert RStripBy("en", IsSpace) == "en";
    }
    AliasShape();
    assert "en" !in LanguageAliases;
    assert "en" in SupportedRow2;
    CodeNormalizes("en");
  }

  /** `a in b or b in a` for two strings. */
  predicate Overlaps(a: string, b: string)
  {
    Contains(b, a) || Contains(a, b)
  }

  /** The supported codes, in `order`, that overlap `language`. */
  function SupportedMatches(language: string, order: seq<string>): (r: seq<string>)
    ensures forall x :: x in r ==> x in order && Overlaps(language, x)
  {
    if order == [] then []
    else
      var last := order[|order| - 1];
      SupportedMatches(language, order[..|order| - 1]) + (if Overlaps(language, last) then [last] else [])
  }

  /** The codes of the alias entries whose name overlaps `language`. */
  function AliasMatches(language: string, entries: seq<(string, string)>): (r: seq<string>)
    ensures forall x :: x in r ==> exists e :: e in entries && e.1 == x && Overlaps(language, e.0)
  {
    if entries == [] then []
    else
      var last := entries[|entries| - 1];
      AliasMatches(language, entries[..|entries| - 1])
        + (if Overlaps(language, last.0) then [last.1] else [])
  }

  /** find_similar_languages, given the order in which the supported-code set
    * is iterated: overlapping codes, then codes of overlapping aliases, without
    * repeats, cut to `maxSuggestions`. */
  function SimilarLanguages(language: string, maxSuggestions: int, order: seq<string>): seq<string>
  {
    if language == "" then []
    else
      AliasTableConsistent();
      var l := Strip(Lower(language));
      SliceTo(Dedup(SupportedMatches(l, order) + AliasMatches(l, AliasEntries)), maxSuggestions)
  }

  /** Suggestions are distinct supported codes, at most `maxSuggestions` of them. */
  lemma SimilarLanguagesSound(language: string, maxSuggestions: int, order: seq<string>)
    requires forall x :: x in order ==> x in SupportedLanguages
    ensures var r := SimilarLanguages(language, maxSuggestions, order);
      && NoDuplicates(r)
      && (forall x :: x in r ==> x in SupportedLanguages)
      && (maxSuggestions >= 0 ==> |r| <= maxSuggestions)
  {
    if language != "" {
      AliasTableConsistent();
      var l := Strip(Lower(language));
      var all := SupportedMatches(l, order) + AliasMatches(l, AliasEntries);
      var d := Dedup(all);
      var r := SliceTo(d, maxSuggestions);
      assert r == d[..|r|];
      forall i, j | 0 <= i < j < |r| ensures r[i] != r[j] {
        assert r[i] == d[i] && r[j] == d[j];
      }
      AliasEntriesSupported();
      forall x | x in r ensures x in SupportedLanguages {
        assert x in d;
        assert x in all;
      }
    }
  }

  /** find_similar_languages, the two loops of the source. */
  method FindSimilarLanguages(language: string, maxSuggestions: int, order: seq<string>) returns (r: seq<string>)
    ensures r == SimilarLanguages(language, maxSuggestions, order)
  {
    if language == "" {
      return [];
    }
    var l := Strip(Lower(language));
    var supported := SupportedMatching(l, order);
    var suggestions := AliasMatching(l, AliasEntries, supported);
    r := SliceTo(Dedup(suggestions), maxSuggestions);
  }

  /** The first loop of find_similar_languages: the supported codes that
    * overlap `l`, in table order. */
  method SupportedMatching(l: string, order: seq<string>) returns (suggestions: seq<string>)
    ensures suggestions == SupportedMatches(l, order)
  {
    suggestions := [];
    var i := 0;
    while i < |order|
      invariant 0 <= i <= |order|
      invariant suggestions == SupportedMatches(l, order[..i])
    {
      if Overlaps(l, order[i]) {
        suggestions := suggestions + [order[i]];
      }
      assert order[..i + 1][..i] == order[..i];
      i := i + 1;
    }
    assert order[..i] == order;
  }

  /** The second loop of find_similar_languages: after `found`, the code of
    * every alias that overlaps `l`, in table order. */
  method AliasMatching(l: string, entries: seq<(string, string)>, found: seq<string>) returns (suggestions: seq<string>)
    ensures suggestions == found + AliasMatches(l, entries)
  {
    suggestions := found;
    var j := 0;
    while j < |entries|
      invariant 0 <= j <= |entries|
      invariant suggestions == found + AliasMatches(l, entries[..j])
    {
      var (alias, code) := entries[j];
      if Overlaps(l, alias) {
        suggestions := suggestions + [code];
      }
      assert entries[..j + 1][..j] == entries[..j];
      j := j + 1;
    }
    assert entries[..j] == entries;
  }

  // ---------------------------------------------------------------------
  // Concept URIs
  // ---------------------------------------------------------------------

  /** The dictionary parse_concept_uri returns. */
  datatype ParsedUri = ParsedUri(language: string, term: string, originalUri: string, normalizedTerm: string)

  /** parse_concept_uri. With `validate`, the checks run in the source's
    * order; an invalid language ends in a TypeError because the exception
    * is built with a keyword argument it does not accept. */
  function ParseConceptUri(uri: string, validate: bool, normalizeTerm: bool): (r: Result<ParsedUri>)
    ensures validate ==>
      var parts := Split(uri, '/');
      && (uri == "" ==> r == Err(InvalidUri(uri)))
      && (uri != "" && |uri| > MaxUriLength ==> r.Err? && r.error.Validation?)
      && (uri != "" && |uri| <= MaxUriLength && (!StartsWith(uri, "/c/") || |parts| < 4 || parts[2] == "" || parts[3] == "")
          ==> r == Err(InvalidUri(uri)))
      && (r.Err? && r.error == TypeErr <==>
            uri != "" && |uri| <= MaxUriLength && StartsWith(uri, "/c/") && |parts| >= 4 && parts[2] != "" && parts[3] != ""
            && !ValidateLanguageCode(parts[2]))
      && (r.Ok? <==>
            uri != "" && |uri| <= MaxUriLength && StartsWith(uri, "/c/") && |parts| >= 4 && parts[2] != "" && parts[3] != ""
            && ValidateLanguageCode(parts[2]))
      && (r.Ok? ==> r.value.language == parts[2] && r.value.term == Unquote(Join(parts[3..], '/')) && r.value.originalUri == uri)
    ensures !validate ==> r.Ok?
  {
    if uri == "" then
      if validate then Err(InvalidUri(uri)) else Ok(ParsedUri("", "", uri, ""))
    else if validate && ValidateTextLength(uri, MaxUriLength, "concept_uri").Some? then
      Err(ValidateTextLength(uri, MaxUriLength, "concept_uri").value)
    else if validate && !StartsWith(uri, "/c/") then Err(InvalidUri(uri))
    else
      var parts := Split(uri, '/');
      SlashCParts(uri);
      if validate && |parts| < 4 then Err(InvalidUri(uri))
      else if validate && |parts| >= 3 && parts[2] == "" then Err(InvalidUri(uri))
      else if validate && |parts| >= 4 && parts[3] == "" then Err(InvalidUri(uri))
      else if validate && |parts| >= 2 && parts[1] != "c" then Err(InvalidUri(uri))
      else
        var language := if |parts| > 2 then parts[2] else "";
        var encoded := if |parts| > 3 then Join(parts[3..], '/') else "";
        var term := if encoded != "" then Unquote(encoded) else "";
        if validate && language != "" && !ValidateLanguageCode(language) then Err(TypeErr)
        else
          var normalized :=
            if normalizeTerm && term != "" then
              if validate && language != "" then
                (match NormalizeConcept(term, language) case Ok(t) => t case Err(_) => term)
              else ReplaceChar(Lower(term), ' ', '_')
            else term;
          Ok(ParsedUri(language, term, uri, normalized))
  }

  /** A URI starting with `/c/` splits into `""`, `"c"` and more. */
  lemma SlashCParts(uri: string)
    ensures StartsWith(uri, "/c/") ==>
      var parts := Split(uri, '/');
      |parts| >= 3 && parts[0] == "" && parts[1] == "c"
    ensures StartsWith(uri, "/c/") ==> Split(uri, '/') == ["", "c"] + Split(uri[3..], '/')
  {
    if StartsWith(uri, "/c/") {
      assert uri[0] == '/' && uri[1] == 'c' && uri[2] == '/';
      var rest := Split(uri[3..], '/');
      var s2 := uri[2..];
      assert s2[0] == '/' && s2[1..] == uri[3..];
      var r2 := Split(s2, '/');
      assert r2 == [""] + rest;
      assert r2[0] == "" && r2[1..] == rest;
      var s1 := uri[1..];
      assert s1[0] == 'c' && s1[1..] == s2;
      assert Split(s1, '/') == [['c'] + r2[0]] + r2[1..];
      assert ['c'] + r2[0] == "c";
      assert Split(uri, '/') == [""] + Split(s1, '/');
    }
  }

  /** validate_concept_uri: true when the URI parses, false when parsing
    * rejects it, and the TypeError of an invalid language passes through. */
  function ValidateConceptUri(uri: string): (r: Result<bool>)
    ensures r.Ok? && r.value <==> ParseConceptUri(uri, true, true).Ok?
    ensures r.Err? ==> r.error == TypeErr
  {
    match ParseConceptUri(uri, true, true)
    case Ok(_) => Ok(true)
    case Err(e) => if e.InvalidUri? || e.Validation? then Ok(false) else Err(e)
  }

  /** construct_concept_uri: `/c/{language}/{term}` from a non-blank term,
    * normalising the language and the term as the flags ask. */
  function ConstructConceptUri(term: string, language: string, autoNormalize: bool, validate: bool): (r: Result<string>)
    ensures term == "" || Strip(term) == "" ==> r.Err? && r.error.Validation? && r.error.field == "term"
    ensures r.Ok? ==> StartsWith(r.value, "/c/")
  {
    if term == "" || Strip(term) == "" then Err(Validation("term", "non-empty string"))
    else
      var normalizedLanguage := if validate then NormalizeLanguageCode(language) else Ok(Strip(Lower(language)));
      match normalizedLanguage
      case Err(e) => Err(e)
      case Ok(lang) =>
        match ConstructTerm(term, lang, autoNormalize, validate)
        case Err(e) => Err(e)
        case Ok(t) => ConceptPath(lang, t, validate)
  }

  /** The term part of construct_concept_uri: normalised with the language's
    * rules, lower-cased with `_` for spaces, or only stripped. */
  function ConstructTerm(term: string, lang: string, autoNormalize: bool, validate: bool): (r: Result<string>)
    ensures !autoNormalize ==> (r.Err? <==> validate && ' ' in Strip(term))
    ensures !autoNormalize && r.Ok? ==> r.value == Strip(term)
    ensures autoNormalize && validate && r.Ok? ==> r == NormalizeConcept(term, lang) && r.value != ""
    ensures r.Err? ==> r.error.Validation? || r.error.InvalidLanguage?
  {
    if autoNormalize then
      if validate then
        NormalizeConceptTextOutcome(term, lang, None, false, false);
        match NormalizeConcept(term, lang)
        case Err(e) => Err(e)
        case Ok(t) =>
          if t == "" || Strip(t) == "" then Err(Validation("term", "text that remains non-empty after normalization"))
          else Ok(t)
      else Ok(ReplaceChar(Lower(Strip(term)), ' ', '_'))
    else
      var t := Strip(term);
      if ' ' in t && validate then
        Err(Validation("term", "term without spaces (use auto_normalize=True or replace spaces with underscores)"))
      else Ok(t)
  }

  /** `/c/{lang}/{t}`, checked with validate_concept_uri when asked. */
  function ConceptPath(lang: string, t: string, validate: bool): (r: Result<string>)
    ensures r.Ok? ==> r.value == "/c/" + lang + "/" + t && StartsWith(r.value, "/c/")
    ensures !validate ==> r.Ok?
  {
    var uri := "/c/" + lang + "/" + t;
    assert uri[..3] == "/c/";
    if validate && ValidateConceptUri(uri).Err? then Err(ValidateConceptUri(uri).error)
    else Ok(uri)
  }

  /** The parts of `/c/{l}/{t}` for a language and a term without `/`. */
  lemma ConceptUriParts(l: string, t: string)
    requires '/' !in l && '/' !in t
    ensures Split("/c/" + l + "/" + t, '/') == ["", "c", l, t]
  {
    var parts := ["", "c", l, t];
    assert Join(parts, '/') == "/c/" + l + "/" + t by {
      assert Join(parts[3..], '/') == t;
      assert Join(parts[2..], '/') == l + "/" + t;
      assert Join(parts[1..], '/') == "c/" + l + "/" + t;
    }
    SplitJoin(parts, '/');
  }

  /** A term of the concept shape holds no `/` and no `%`. */
  lemma ConceptFormHasNoSlash(t: string)
    requires ConceptForm(t)
    ensures '/' !in t && '%' !in t && ' ' !in t
  {
  }

  /** A code from the language table holds no `/`, is valid and normalises
    * to itself. */
  lemma KnownCodeIsValid(l: string)
    requires l in ExtendedLanguageCodes
    ensures '/' !in l && ValidateLanguageCode(l) && NormalizeLanguageCode(l) == Ok(l) && |l| <= 5
  {
    SupportedShape();
    RegionalShape();
    AliasShape();
    assert TwoLetterCode(l) || RegionalCode(l);
    assert l !in LanguageAliases;
    CodeIsNormal(l);
    CodeNormalizes(l);
  }

  /** A code of the table's shape is its own lower case and strip. */
  lemma CodeIsNormal(l: string)
    requires TwoLetterCode(l) || RegionalCode(l)
    ensures Lower(l) == l && Strip(l) == l && '/' !in l
  {
    forall i | 0 <= i < |l| ensures IsAscii(l[i]) && !IsAsciiUpper(l[i]) && !IsSpace(l[i]) && l[i] != '/' {
    }
    LowerKeeps(l);
    StripKeeps(l);
  }

  /** Constructing a URI with validation and parsing it back gives the
    * normalised language and the normalised term. */
  lemma ConstructThenParse(term: string, language: string)
    requires ConstructConceptUri(term, language, true, true).Ok?
    ensures var uri := ConstructConceptUri(term, language, true, true).value;
      var lang := NormalizeLanguageCode(language).value;
      var t := NormalizeConcept(term, lang).value;
      && NormalizeLanguageCode(language).Ok?
      && NormalizeConcept(term, lang).Ok?
      && uri == "/c/" + lang + "/" + t
      && ParseConceptUri(uri, true, true).Ok?
      && ParseConceptUri(uri, true, true).value.language == lang
      && ParseConceptUri(uri, true, true).value.term == t
  {
    var lang := NormalizeLanguageCode(language).value;
    KnownCodeIsValid(lang);
    var t := NormalizeConcept(term, lang).value;
    assert ConstructTerm(term, lang, true, true) == Ok(t);
    NormalizeConceptTextOutcome(term, lang, None, false, false);
    ConceptFormHasNoSlash(t);
    ParseConceptPath(lang, t);
  }

  /** A path that parses passes validation unchanged. */
  lemma ValidPathIsKept(lang: string, t: string)
    requires ParseConceptUri("/c/" + lang + "/" + t, true, true).Ok?
    ensures ConceptPath(lang, t, true) == Ok("/c/" + lang + "/" + t)
  {
  }

  /** Parsing `/c/{lang}/{t}` for a valid code and a short term without `/`
    * or `%` gives back the code and the term. */
  lemma ParseConceptPath(lang: string, t: string)
    requires lang != "" && t != "" && '/' !in lang && '/' !in t && '%' !in t
    requires ValidateLanguageCode(lang) && |lang| <= 6 && |t| <= MaxConceptLength
    ensures var uri := "/c/" + lang + "/" + t;
      && ParseConceptUri(uri, true, true).Ok?
      && ParseConceptUri(uri, true, true).value.language == lang
      && ParseConceptUri(uri, true, true).value.term == t
  {
    var uri := "/c/" + lang + "/" + t;
    ConceptUriParts(lang, t);
    var parts := Split(uri, '/');
    assert parts[3..] == [t];
    assert Join(parts[3..], '/') == t;
    assert StartsWith(uri, "/c/") by {
      assert uri[..3] == "/c/";
    }
    assert |uri| <= MaxUriLength;
  }

  /** parse_concept_uri(construct_concept_uri(t, "en")) gives back English
    * and the normalised term. */
  lemma EnglishRoundTrip(term: string)
    requires ConstructConceptUri(term, "en", true, true).Ok?
    ensures var uri := ConstructConceptUri(term, "en", true, true).value;
      && ParseConceptUri(uri, true, true).Ok?
      && ParseConceptUri(uri, true, true).value.language == "en"
      && ParseConceptUri(uri, true, true).value.term == NormalizeConcept(term, "en").value
  {
    EnglishIsValid();
    ConstructThenParse(term, "en");
  }

  // ---------------------------------------------------------------------
  // Truncation and sanitising
  // ---------------------------------------------------------------------

  /** `s.rfind(c)`: the last index of `c`, or -1. */
  function LastIndexOf(s: string, c: char): (i: int)
    ensures -1 <= i < |s|
    ensures i >= 0 ==> s[i] == c
    ensures forall j :: i < j < |s| ==> s[j] != c
  {
    if s == [] then -1
    else if s[|s| - 1] == c then |s| - 1
    else LastIndexOf(s[..|s| - 1], c)
  }

  /** truncate_text_safely. */
  function TruncateTextSafely(text: string, maxLength: int, preserveWords: bool, indicator: string): (r: string)
    ensures |r| <= if maxLength < 0 then 0 else maxLength
    ensures text == "" || maxLength <= 0 ==> r == ""
    ensures text != "" && 0 < maxLength && |text| <= maxLength ==> r == text
    ensures |text| > maxLength > |indicator| ==>
      EndsWith(r, indicator) && StartsWith(text, r[..|r| - |indicator|])
    ensures |text| > maxLength && 0 < maxLength <= |indicator| ==> r == indicator[..maxLength]
  {
    if text == "" || maxLength <= 0 then ""
    else if |text| <= maxLength then text
    else
      var effective := maxLength - |indicator|;
      if effective <= 0 then SliceTo(indicator, maxLength)
      else if !preserveWords then text[..effective] + indicator
      else
        var truncated := text[..effective];
        var lastSpace := LastIndexOf(truncated, ' ');
        var kept := if lastSpace > 0 then truncated[..lastSpace] else truncated;
        assert (kept + indicator)[..|kept|] == kept;
        kept + indicator
  }

  /** `[\x00-\x1f\x7f-\x9f]`. */
  predicate IsControl(c: char) { c <= '\U{1f}' || ('\U{7f}' <= c <= '\U{9f}') }

  /** `[/\\?@.,;:!+=()\[\]{}'"<>&%|]`, the characters turned into `_`. */
  predicate IsUriPunctuation(c: char)
  {
    c in "/\\?@.,;:!+=()[]{}'\"<>&%|"
  }

  /** `[#$^*]`, the characters dropped. */
  predicate IsDropped(c: char) { c in "#$^*" }

  predicate IsVisible(c: char) { !IsControl(c) }
  predicate IsKept(c: char) { !IsDropped(c) }

  /** A character that survives sanitising. */
  predicate UriSafe(c: char)
  {
    !IsControl(c) && !IsUriPunctuation(c) && !IsDropped(c) && !IsSpace(c) && c != '-'
  }

  /** sanitize_text_for_uri. The three scheme patterns are matched on the
    * lower-cased text. */
  function SanitizeTextForUri(text: string, maxLength: int): (r: string)
  {
    if text == "" then ""
    else
      var cut := if |text| > maxLength then SliceTo(text, maxLength) else text;
      var lowered := Lower(NormalizeUnicode(cut, false));
      var visible := Filter(lowered, IsVisible);
      var schemeless := RemoveAll(RemoveAll(RemoveAll(visible, "javascript:"), "data:"), "vbscript:");
      SanitizedTail(schemeless)
  }

  /** The steps of sanitize_text_for_uri after the schemes are removed:
    * punctuation to `_`, dropped characters removed, runs of spaces and
    * then of separators to one `_`, separators stripped from both ends. */
  function SanitizedTail(schemeless: string): string
  {
    var underscored := seq(|schemeless|, i requires 0 <= i < |schemeless| =>
                             if IsUriPunctuation(schemeless[i]) then '_' else schemeless[i]);
    var undropped := Filter(underscored, IsKept);
    var unspaced := SubRuns(undropped, IsSpace, "_");
    StripBy(SubRuns(unspaced, IsSep, "_"), IsSep)
  }

  /** Sanitised text holds only safe characters and `_`, never two `_` in a
    * row, and no `_` at either end. */
  lemma SanitizedForm(text: string, maxLength: int)
    ensures var r := SanitizeTextForUri(text, maxLength);
      && (forall i :: 0 <= i < |r| ==> r[i] == '_' || UriSafe(r[i]))
      && NoAdjacent(r, IsSep)
      && (r != [] ==> r[0] != '_' && r[|r| - 1] != '_')
  {
    if text != "" {
      var cut := if |text| > maxLength then SliceTo(text, maxLength) else text;
      var lowered := Lower(NormalizeUnicode(cut, false));
      var visible := Filter(lowered, IsVisible);
      var visibleQ := (c: char) => !IsControl(c);
      assert All(visible, visibleQ);
      RemoveAllAll(visible, "javascript:", visibleQ);
      RemoveAllAll(RemoveAll(visible, "javascript:"), "data:", visibleQ);
      var schemeless := RemoveAll(RemoveAll(RemoveAll(visible, "javascript:"), "data:"), "vbscript:");
      RemoveAllAll(RemoveAll(RemoveAll(visible, "javascript:"), "data:"), "vbscript:", visibleQ);
      assert forall i :: 0 <= i < |schemeless| ==> !IsControl(schemeless[i]);
      SanitizedTailForm(schemeless);
    }
  }

  /** The later steps of sanitising leave only safe characters and single
    * `_` separators, none at either end. */
  lemma SanitizedTailForm(schemeless: string)
    requires forall i :: 0 <= i < |schemeless| ==> !IsControl(schemeless[i])
    ensures var r := SanitizedTail(schemeless);
      && (forall i :: 0 <= i < |r| ==> r[i] == '_' || UriSafe(r[i]))
      && NoAdjacent(r, IsSep)
      && (r != [] ==> r[0] != '_' && r[|r| - 1] != '_')
  {
    var underscored := seq(|schemeless|, i requires 0 <= i < |schemeless| =>
                             if IsUriPunctuation(schemeless[i]) then '_' else schemeless[i]);
    var shown := (c: char) => c == '_' || (!IsControl(c) && !IsUriPunctuation(c));
    assert All(underscored, shown);
    var undropped := Filter(underscored, IsKept);
    FilterAll(underscored, IsKept, shown);
    var kept := (c: char) => c == '_' || (!IsControl(c) && !IsUriPunctuation(c) && !IsDropped(c));
    assert All(undropped, kept);
    var solid := (c: char) => c == '_' || (!IsControl(c) && !IsUriPunctuation(c) && !IsDropped(c) && !IsSpace(c));
    SubRunsAll(undropped, IsSpace, "_", solid);
    var unspaced := SubRuns(undropped, IsSpace, "_");
    var safe := (c: char) => c == '_' || UriSafe(c);
    SubRunsAll(unspaced, IsSep, "_", safe);
    SubRunsNoAdjacent(unspaced, IsSep, "_");
    var runs := SubRuns(unspaced, IsSep, "_");
    StripByAll(runs, IsSep, safe);
    StripByNoAdjacent(runs, IsSep, IsSep);
  }

  // ---------------------------------------------------------------------
  // Whitespace and display text
  // ---------------------------------------------------------------------

  /** `re.sub(r'\r\n|\r', '\n', s)`. */
  function UnifyNewlines(s: string): (r: string)
    ensures '\r' !in r
    ensures forall x :: x in r ==> x in s || x == '\n'
    decreases |s|
  {
    if s == [] then []
    else if s[0] == '\r' then
      var rest := if |s| >= 2 && s[1] == '\n' then s[2..] else s[1..];
      assert forall x :: x in rest ==> x in s;
      "\n" + UnifyNewlines(rest)
    else
      assert forall x :: x in s[1..] ==> x in s;
      [s[0]] + UnifyNewlines(s[1..])
  }

  /** `[\t\v\f]`. */
  predicate IsTabLike(c: char) { c == '\t' || c == '\U{0b}' || c == '\U{0c}' }

  /** `[\u00A0\u1680\u2000-\u200B\u202F\u205F\u3000]`. */
  predicate IsWideSpace(c: char)
  {
    c == '\U{a0}' || c == '\U{1680}' || ('\U{2000}' <= c <= '\U{200b}') || c == '\U{202f}' || c == '\U{205f}' || c == '\U{3000}'
  }

  /** clean_whitespace. The final pass `'  +' -> ' '` is the same rewrite
    * as `' +' -> ' '`. */
  function CleanWhitespace(text: string, normalizeNewlines: bool): (r: string)
  {
    if text == "" then ""
    else
      var unified := if normalizeNewlines then UnifyNewlines(text) else text;
      var untabbed := SubRuns(SubRuns(unified, IsTabLike, " "), IsBlank, " ");
      var single := if normalizeNewlines then ReplaceChar(SubRuns(untabbed, IsNewline, "\n"), '\n', ' ') else untabbed;
      var widened := SubRuns(single, IsWideSpace, " ");
      Strip(SubRuns(widened, IsBlank, " "))
  }

  /** Neither a tab-like character nor a line break. */
  predicate Unbroken(c: char) { !IsTabLike(c) && c != '\r' && c != '\n' }
  predicate NotTabLike(c: char) { !IsTabLike(c) }
  predicate NotReturn(c: char) { c != '\r' }
  predicate UnbrokenNoReturn(c: char) { !IsTabLike(c) && c != '\r' }

  /** The last two passes of clean_whitespace and the strip keep a
    * character property that holds for the space, remove wide spaces, and
    * leave single spaces with no whitespace at the ends. */
  lemma SpacingTail(single: string, q: char -> bool)
    requires All(single, q) && q(' ')
    ensures var r := Strip(SubRuns(SubRuns(single, IsWideSpace, " "), IsBlank, " "));
      && All(r, q)
      && (forall i :: 0 <= i < |r| ==> !IsWideSpace(r[i]))
      && NoAdjacent(r, IsBlank)
      && (r != [] ==> !IsSpace(r[0]) && !IsSpace(r[|r| - 1]))
  {
    var narrow := (c: char) => q(c) && !IsWideSpace(c);
    SubRunsAll(single, IsWideSpace, " ", narrow);
    var widened := SubRuns(single, IsWideSpace, " ");
    SubRunsAll(widened, IsBlank, " ", narrow);
    SubRunsNoAdjacent(widened, IsBlank, " ");
    var spaced := SubRuns(widened, IsBlank, " ");
    StripByAll(spaced, IsSpace, narrow);
    StripByNoAdjacent(spaced, IsSpace, IsBlank);
    var r := Strip(spaced);
    assert All(r, narrow);
    assert forall i :: 0 <= i < |r| ==> narrow(r[i]);
  }

  /** With newline handling, the text before the last passes holds no tab,
    * vertical tab, form feed or line break. */
  lemma UnbrokenBeforeTail(text: string)
    ensures var untabbed := SubRuns(SubRuns(UnifyNewlines(text), IsTabLike, " "), IsBlank, " ");
      All(ReplaceChar(SubRuns(untabbed, IsNewline, "\n"), '\n', ' '), Unbroken)
  {
    var unified := UnifyNewlines(text);
    assert All(unified, NotReturn);
    SubRunsAll(unified, IsTabLike, " ", UnbrokenNoReturn);
    var tabs := SubRuns(unified, IsTabLike, " ");
    SubRunsAll(tabs, IsBlank, " ", UnbrokenNoReturn);
    var untabbed := SubRuns(tabs, IsBlank, " ");
    SubRunsAll(untabbed, IsNewline, "\n", UnbrokenNoReturn);
  }

  /** Without newline handling, the text before the last passes holds no
    * tab, vertical tab or form feed. */
  lemma UntabbedBeforeTail(text: string)
    ensures All(SubRuns(SubRuns(text, IsTabLike, " "), IsBlank, " "), NotTabLike)
  {
    SubRunsAll(text, IsTabLike, " ", NotTabLike);
    SubRunsAll(SubRuns(text, IsTabLike, " "), IsBlank, " ", NotTabLike);
  }

  /** Cleaned text has no tab, vertical tab or form feed, no two spaces in a
    * row, no whitespace at either end, and with newline handling no line
    * breaks at all. */
  lemma CleanWhitespaceForm(text: string, normalizeNewlines: bool)
    ensures var r := CleanWhitespace(text, normalizeNewlines);
      && (forall i :: 0 <= i < |r| ==> !IsTabLike(r[i]) && !IsWideSpace(r[i]))
      && (normalizeNewlines ==> forall i :: 0 <= i < |r| ==> r[i] != '\n' && r[i] != '\r')
      && NoAdjacent(r, IsBlank)
      && (r != [] ==> !IsSpace(r[0]) && !IsSpace(r[|r| - 1]))
  {
    if text != "" {
      if normalizeNewlines {
        UnbrokenBeforeTail(text);
        var untabbed := SubRuns(SubRuns(UnifyNewlines(text), IsTabLike, " "), IsBlank, " ");
        SpacingTail(ReplaceChar(SubRuns(untabbed, IsNewline, "\n"), '\n', ' '), Unbroken);
      } else {
        UntabbedBeforeTail(text);
        SpacingTail(SubRuns(SubRuns(text, IsTabLike, " "), IsBlank, " "), NotTabLike);
      }
    }
  }

  /** The spacing part of normalize_text_for_display: `_` becomes a space,
    * whitespace runs become one space, and the ends are stripped. */
  function DisplaySpacing(text: string): (r: string)
  {
    Strip(SubRuns(ReplaceChar(text, '_', ' '), IsSpace, " "))
  }

  /** Spaced display text holds no `_`, no whitespace other than single
    * spaces between words, and none at the ends. */
  lemma DisplaySpacingForm(text: string)
    ensures var r := DisplaySpacing(text);
      && (forall i :: 0 <= i < |r| ==> r[i] != '_' && (IsSpace(r[i]) ==> r[i] == ' '))
      && NoAdjacent(r, IsSpace)
      && (r != [] ==> !IsSpace(r[0]) && !IsSpace(r[|r| - 1]))
  {
    var spaced := ReplaceChar(text, '_', ' ');
    var plain := (c: char) => c != '_' && (IsSpace(c) ==> c == ' ');
    SubRunsAll(spaced, IsSpace, " ", plain);
    SubRunsNoAdjacent(spaced, IsSpace, " ");
    var runs := SubRuns(spaced, IsSpace, " ");
    StripByAll(runs, IsSpace, plain);
    StripByNoAdjacent(runs, IsSpace, IsSpace);
  }

  /** normalize_text_for_display: spacing, then title case for all-lower-case
    * text of at most five words. */
  function NormalizeTextForDisplay(text: string): (r: string)
    ensures |r| <= |text|
  {
    if text == "" then ""
    else
      var spaced := DisplaySpacing(text);
      if IsLowerText(spaced) && WordCount(spaced) <= 5 then Title(spaced, false) else spaced
  }

  /** For every input: empty text gives `""`; other text gives its spaced
    * form, title-cased when that is all lower case and at most five words
    * long, and title-casing leaves the spaces between the words in place. */
  lemma DisplayTitleRule(text: string)
    ensures text == "" ==> NormalizeTextForDisplay(text) == ""
    ensures text != "" ==>
      var spaced := DisplaySpacing(text);
      NormalizeTextForDisplay(text)
        == (if IsLowerText(spaced) && WordCount(spaced) <= 5 then Title(spaced, false) else spaced)
    ensures text != "" ==>
      |NormalizeTextForDisplay(text)| == |DisplaySpacing(text)|
      && forall i :: 0 <= i < |DisplaySpacing(text)| && DisplaySpacing(text)[i] == ' ' ==>
           NormalizeTextForDisplay(text)[i] == ' '
  {
    if text != "" {
      TitleKeepsNonLetters(DisplaySpacing(text), false);
    }
  }

  /** Display text does not depend on whether words were joined by `_` or
    * by spaces. */
  lemma DisplayIgnoresUnderscores(text: string)
    ensures NormalizeTextForDisplay(ReplaceChar(text, ' ', '_')) == NormalizeTextForDisplay(text)
  {
    assert ReplaceChar(ReplaceChar(text, ' ', '_'), '_', ' ') == ReplaceChar(text, '_', ' ');
  }

  /** is_valid_concept_format. */
  predicate IsValidConceptFormat(text: string)
  {
    && text != ""
    && |text| <= MaxConceptLength
    && ' ' !in text
    && '\t' !in text && '\n' !in text && '\r' !in text
    && (forall c :: c in "/?&=%#" ==> c !in text)
    && (exists i :: 0 <= i < |text| && IsWordChar(text[i]))
    && (forall i :: 0 <= i < |text| ==> IsTermChar(text[i]))
    && NormalizeConcept(text, "en").Ok? && NormalizeConcept(text, "en").value != ""
  }

  /** A text of valid concept format becomes an English concept URI. */
  lemma ValidFormatConstructs(text: string)
    requires IsValidConceptFormat(text)
    ensures ConstructConceptUri(text, "en", true, true) == Ok("/c/en/" + NormalizeConcept(text, "en").value)
  {
    EnglishConstructs(text);
  }

  /** Text that normalises to a non-empty English term becomes the English
    * concept URI of that term. */
  lemma EnglishConstructs(text: string)
    requires NormalizeConcept(text, "en").Ok? && NormalizeConcept(text, "en").value != ""
    ensures ConstructConceptUri(text, "en", true, true) == Ok("/c/en/" + NormalizeConcept(text, "en").value)
  {
    assert "en" in SupportedRow2;
    assert "en" in ExtendedLanguageCodes;
    KnownCodeConstructs(text, "en");
    EnglishPrefix();
  }

  /** The English concept prefix, spelled out. */
  lemma EnglishPrefix()
    ensures "/c/" + "en" + "/" == "/c/en/"
  {
  }

  /** With a code from the table, text that normalises to a non-empty term
    * becomes the concept URI of that code and term. */
  lemma KnownCodeConstructs(text: string, lang: string)
    requires lang in ExtendedLanguageCodes
    requires NormalizeConcept(text, lang).Ok? && NormalizeConcept(text, lang).value != ""
    ensures ConstructConceptUri(text, lang, true, true) == Ok("/c/" + lang + "/" + NormalizeConcept(text, lang).value)
  {
    KnownCodeIsValid(lang);
    var t := KnownCodeTerm(text, lang);
    ParseConceptPath(lang, t);
    ValidPathIsKept(lang, t);
  }

  /** The term step of construct_concept_uri for such a text: its normalised
    * form, which is short and holds no `/` and no `%`. */
  lemma KnownCodeTerm(text: string, lang: string) returns (t: string)
    requires ValidateLanguageCode(lang)
    requires NormalizeConcept(text, lang).Ok? && NormalizeConcept(text, lang).value != ""
    ensures NormalizeConcept(text, lang) == Ok(t)
    ensures text != "" && Strip(text) != "" && ConstructTerm(text, lang, true, true) == Ok(t)
    ensures t != "" && '/' !in t && '%' !in t && |t| <= MaxConceptLength
  {
    t := NormalizeConcept(text, lang).value;
    NormalizeConceptTextOutcome(text, lang, None, false, false);
    assert Strip(text) != "";
    ConceptFormHasNoSlash(t);
    ConceptFormIsStripped(t);
  }

  /** A concept-shaped term has nothing to strip. */
  lemma ConceptFormIsStripped(t: string)
    requires ConceptForm(t)
    ensures Strip(t) == t
  {
    if t != [] {
      WordCharIsNoSpace(t[0]);
      WordCharIsNoSpace(t[|t| - 1]);
    }
    StripKeeps(t);
  }

  // ---------------------------------------------------------------------
  // URIs back to text
  // ---------------------------------------------------------------------

  /** normalize_uri_to_text: the display text of the parsed term; when
    * parsing rejects the URI, the display text of everything after the
    * third `/`, or the URI itself. A TypeError from parsing passes through. */
  function NormalizeUriToText(uri: string): (r: Result<string>)
    ensures r.Err? <==> uri != "" && ParseConceptUri(uri, true, true) == Err(TypeErr)
    ensures ParseConceptUri(uri, true, true).Ok? ==>
      r == Ok(NormalizeTextForDisplay(ParseConceptUri(uri, true, true).value.term))
  {
    if uri == "" then Ok("")
    else
      match ParseConceptUri(uri, true, true)
      case Ok(parsed) => Ok(NormalizeTextForDisplay(parsed.term))
      case Err(e) =>
        if e.InvalidUri? || e.Validation? then
          var parts := Split(uri, '/');
          if |parts| >= 4 then Ok(NormalizeTextForDisplay(Unquote(Join(parts[3..], '/'))))
          else Ok(uri)
        else Err(e)
  }

  /** extract_language_from_uri: the parsed language; when parsing rejects
    * the URI, the third segment of a `/c/` path if it is a valid code. */
  function ExtractLanguageFromUri(uri: string): (r: Result<Option<string>>)
    ensures r.Ok? && r.value.Some? ==> ValidateLanguageCode(r.value.value)
    ensures r.Err? <==> uri != "" && ParseConceptUri(uri, true, true) == Err(TypeErr)
  {
    if uri == "" then Ok(None)
    else
      match ParseConceptUri(uri, true, true)
      case Ok(parsed) => Ok(Some(parsed.language))
      case Err(e) =>
        if e.InvalidUri? || e.Validation? then
          var parts := Split(uri, '/');
          if |parts| >= 3 && parts[1] == "c" then
            Ok(if ValidateLanguageCode(parts[2]) then Some(parts[2]) else None)
          else Ok(None)
        else Err(e)
  }

  // ---------------------------------------------------------------------
  // Relations
  // ---------------------------------------------------------------------

  /** `re.sub(r'([a-z])([A-Z])', r'\1 \2', s)`: a space at every boundary
    * from an ASCII lower-case letter to an ASCII upper-case one. */
  function CamelSpace(s: string): (r: string)
    ensures |r| >= |s|
    decreases |s|
  {
    if |s| < 2 then s
    else if IsAsciiLower(s[0]) && IsAsciiUpper(s[1]) then [s[0], ' '] + CamelSpace(s[1..])
    else [s[0]] + CamelSpace(s[1..])
  }

  /** The boundary rewrite only inserts spaces: taking the spaces out of
    * both sides gives the same text. */
  lemma {:induction false} CamelSpaceOnlyInsertsSpaces(s: string)
    ensures Filter(CamelSpace(s), NotBlank) == Filter(s, NotBlank)
    decreases |s|
  {
    if |s| >= 2 {
      CamelSpaceOnlyInsertsSpaces(s[1..]);
      FilterAppend([s[0]], s[1..], NotBlank);
      if IsAsciiLower(s[0]) && IsAsciiUpper(s[1]) {
        FilterAppend([s[0], ' '], CamelSpace(s[1..]), NotBlank);
        assert Filter([s[0], ' '], NotBlank) == [s[0]];
      } else {
        FilterAppend([s[0]], CamelSpace(s[1..]), NotBlank);
      }
      assert s == [s[0]] + s[1..];
    }
  }

  /** The boundary rewrite of ASCII text is ASCII text. */
  lemma {:induction false} CamelSpaceAscii(s: string)
    requires forall i :: 0 <= i < |s| ==> IsAscii(s[i])
    ensures forall i :: 0 <= i < |CamelSpace(s)| ==> IsAscii(CamelSpace(s)[i])
    decreases |s|
  {
    if |s| >= 2 {
      CamelSpaceAscii(s[1..]);
      var rest := CamelSpace(s[1..]);
      var head := if IsAsciiLower(s[0]) && IsAsciiUpper(s[1]) then [s[0], ' '] else [s[0]];
      assert CamelSpace(s) == head + rest;
      forall i | 0 <= i < |head + rest| ensures IsAscii((head + rest)[i]) {
        if i >= |head| {
          assert (head + rest)[i] == rest[i - |head|];
          assert IsAscii(rest[i - |head|]);
        } else {
          assert IsAscii(s[0]) && IsAscii(' ');
        }
      }
    }
  }

  /** Lower-casing goes character by character. */
  lemma LowerAppend(a: string, b: string)
    ensures Lower(a + b) == Lower(a) + Lower(b)
  {
    assert forall i :: 0 <= i < |a + b| ==> Lower(a + b)[i] == (Lower(a) + Lower(b))[i];
  }

  /** On ASCII text, lower-casing and dropping the spaces commute. */
  lemma {:induction false} LowerWithoutBlanks(s: string)
    requires forall i :: 0 <= i < |s| ==> IsAscii(s[i])
    ensures Filter(Lower(s), NotBlank) == Lower(Filter(s, NotBlank))
    decreases |s|
  {
    if s != [] {
      var tail := s[1..];
      LowerWithoutBlanks(tail);
      assert s == [s[0]] + tail;
      LowerAppend([s[0]], tail);
      var low := LowerChar(s[0]);
      assert Lower(s) == [low] + Lower(tail);
      assert NotBlank(low) <==> NotBlank(s[0]);
      var head := if NotBlank(s[0]) then [s[0]] else [];
      var lowHead := if NotBlank(low) then [low] else [];
      assert Lower(head) == lowHead;
      assert Filter(Lower(s), NotBlank) == lowHead + Filter(Lower(tail), NotBlank);
      assert Filter(s, NotBlank) == head + Filter(tail, NotBlank);
      LowerAppend(head, Filter(tail, NotBlank));
    }
  }

  lemma {:induction false} FilterAppend(a: string, b: string, keep: char -> bool)
    ensures Filter(a + b, keep) == Filter(a, keep) + Filter(b, keep)
    decreases |a|
  {
    if a != [] {
      FilterAppend(a[1..], b, keep);
      assert (a + b)[0] == a[0];
      assert (a + b)[1..] == a[1..] + b;
      var head := if keep(a[0]) then [a[0]] else [];
      assert Filter(a + b, keep) == head + Filter(a[1..] + b, keep);
      assert Filter(a, keep) == head + Filter(a[1..], keep);
    } else {
      assert a + b == b;
    }
  }

  /** normalize_relation_text: the table's text for a known relation URI,
    * otherwise the name after `/r/` split at lower-to-upper boundaries and
    * lower-cased. */
  function NormalizeRelationText(relationUri: string): string
  {
    if relationUri == "" then ""
    else if relationUri in RelationPatterns then RelationPatterns[relationUri]
    else
      var name := if StartsWith(relationUri, "/r/") then relationUri[3..] else relationUri;
      Lower(CamelSpace(name))
  }

  /** A relation URI outside the table, in ASCII, reads as its name without
    * the `/r/`: no upper-case letter is left, and apart from the spaces
    * the text is the name's characters, lower-cased, in order. */
  lemma RelationTextOfName(relationUri: string)
    requires relationUri != "" && relationUri !in RelationPatterns
    requires forall i :: 0 <= i < |relationUri| ==> IsAscii(relationUri[i])
    ensures var name := if StartsWith(relationUri, "/r/") then relationUri[3..] else relationUri;
      var r := NormalizeRelationText(relationUri);
      && (forall i :: 0 <= i < |r| ==> !IsAsciiUpper(r[i]))
      && Filter(r, NotBlank) == Lower(Filter(name, NotBlank))
  {
    var name := if StartsWith(relationUri, "/r/") then relationUri[3..] else relationUri;
    assert forall i :: 0 <= i < |name| ==> IsAscii(name[i]);
    var spaced := CamelSpace(name);
    CamelSpaceAscii(name);
    CamelSpaceOnlyInsertsSpaces(name);
    LowerWithoutBlanks(spaced);
    var r := Lower(spaced);
    assert NormalizeRelationText(relationUri) == r;
    forall i | 0 <= i < |r| ensures !IsAsciiUpper(r[i]) {
      assert r[i] == LowerChar(spaced[i]);
    }
  }

  /** A relation URI in the table reads as the table's text. */
  lemma RelationTextOfKnown(relationUri: string)
    requires relationUri in RelationPatterns
    ensures NormalizeRelationText(relationUri) == RelationPatterns[relationUri]
  {
    assert relationUri != "" by { assert "" !in RelationPatterns; }
  }
}

/** The closed severity vocabulary and its normaliser (Severity.java). */
module Severities {
  import opened Wrappers
  import opened Text

  datatype Severity = CRITICAL | HIGH | MEDIUM | LOW | INFORMATIONAL

  /** Enum.name(), which is also what toString and StringBuilder.append print. */
  function Name(s: Severity): string {
    match s
    case CRITICAL => "CRITICAL"
    case HIGH => "HIGH"
    case MEDIUM => "MEDIUM"
    case LOW => "LOW"
    case INFORMATIONAL => "INFORMATIONAL"
  }

  const CriticalWords: set<string> := {"critical", "severe"}
  const HighWords: set<string> := {"high", "important", "error"}
  const MediumWords: set<string> := {"medium", "moderate"}
  const LowWords: set<string> := {"low", "minor"}
  const InfoWords: set<string> := {"info", "informational", "notice"}

  /**
   * Severity.fromRaw: the lower-cased word is looked up in the synonym sets;
   * `null`, the empty string and every unknown word give MEDIUM.
   */
  function FromRaw(raw: Option<string>): (r: Severity)
    ensures (raw == None || raw == Some("")) ==> r == MEDIUM
    ensures r == CRITICAL <==> raw.Some? && ToLower(raw.value) in CriticalWords
    ensures r == HIGH <==> raw.Some? && ToLower(raw.value) in HighWords
    ensures r == LOW <==> raw.Some? && ToLower(raw.value) in LowWords
    ensures r == INFORMATIONAL <==> raw.Some? && ToLower(raw.value) in InfoWords
    ensures r == MEDIUM <==> raw == None || ToLower(raw.value) !in CriticalWords + HighWords + LowWords + InfoWords
  {
    if raw == None || raw.value == "" then MEDIUM
    else
      var w := ToLower(raw.value);
      if w in CriticalWords then CRITICAL
      else if w in HighWords then HIGH
      else if w in MediumWords then MEDIUM
      else if w in LowWords then LOW
      else if w in InfoWords then INFORMATIONAL
      else MEDIUM
  }

  /** Matching ignores case: any casing of a word normalises like its lower-case form. */
  lemma CaseInsensitive(raw: string)
    ensures FromRaw(Some(raw)) == FromRaw(Some(ToLower(raw)))
    ensures FromRaw(Some(raw)) == FromRaw(Some(ToUpper(raw)))
  {
    LowerIdempotent(raw);
    LowerOfUpper(raw);
  }

  /** fromRaw(s.name()) == s: every lower-cased name is in its own synonym set. */
  lemma NameRoundTrip(s: Severity)
    ensures FromRaw(Some(Name(s))) == s
  {
    match s
    case CRITICAL => assert ToLower("CRITICAL") == "critical";
    case HIGH => assert ToLower("HIGH") == "high";
    case MEDIUM => assert ToLower("MEDIUM") == "medium";
    case LOW => assert ToLower("LOW") == "low";
    case INFORMATIONAL => assert ToLower("INFORMATIONAL") == "informational";
  }

  /** Distinct severities have distinct names, none of which contains '|'. */
  lemma NameInjective(s: Severity, t: Severity)
    ensures Name(s) == Name(t) ==> s == t
    ensures '|' !in Name(s)
  {
  }

  /** The word "high" rates HIGH. */
  lemma HighWord()
    ensures FromRaw(Some("high")) == HIGH
  {
    assert ToLower("high") == "high";
  }
}

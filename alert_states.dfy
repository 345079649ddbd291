/** The closed lifecycle-state vocabulary and its two normalisers (AlertState.java). */
module AlertStates {
  import opened Wrappers
  import opened Text

  datatype AlertState = OPEN | FALSE_POSITIVE | SUPPRESSED | FIXED | CONFIRM

  /** Enum.name(). */
  function Name(s: AlertState): string {
    match s
    case OPEN => "OPEN"
    case FALSE_POSITIVE => "FALSE_POSITIVE"
    case SUPPRESSED => "SUPPRESSED"
    case FIXED => "FIXED"
    case CONFIRM => "CONFIRM"
  }

  /** Both normalisers compare the lower-cased state with every '_' turned into a space. */
  function Normalize(raw: string): (r: string)
    ensures '_' !in r
  {
    ReplaceChar(ToLower(raw), '_', ' ')
  }

  const OpenWords: set<string> := {"open", "new"}
  const FixedWords: set<string> := {"fixed", "resolved"}
  const ConfirmWords: set<string> := {"confirm", "acknowledged"}
  const FalsePositiveWords: set<string> := {"false positive", "false_positive", "unlikely"}
  const SuppressedWords: set<string> := {"dismissed", "suppressed", "ignored"}

  /**
   * The one-argument AlertState.fromRaw: a fixed table from the normalised
   * word to a state; `null`, empty and unknown words give OPEN.
   */
  function FromRaw(raw: Option<string>): (r: AlertState)
    ensures (raw == None || raw == Some("")) ==> r == OPEN
    ensures r == SUPPRESSED <==> raw.Some? && Normalize(raw.value) in SuppressedWords
    ensures r == FALSE_POSITIVE <==> raw.Some? && Normalize(raw.value) in FalsePositiveWords
    ensures r == FIXED <==> raw.Some? && Normalize(raw.value) in FixedWords
    ensures r == CONFIRM <==> raw.Some? && Normalize(raw.value) in ConfirmWords
    ensures r == OPEN <==>
      (raw == None || Normalize(raw.value) !in SuppressedWords + FalsePositiveWords + FixedWords + ConfirmWords)
  {
    if raw == None || raw.value == "" then OPEN
    else
      var w := Normalize(raw.value);
      if w in SuppressedWords then SUPPRESSED
      else if w in OpenWords then OPEN
      else if w in FalsePositiveWords then FALSE_POSITIVE
      else if w in FixedWords then FIXED
      else if w in ConfirmWords then CONFIRM
      else OPEN
  }

  /** The `case "false_positive"` label is dead: a normalised word never holds '_'. */
  lemma UnderscoreLabelUnreachable(raw: string)
    ensures Normalize(raw) != "false_positive"
  {
    assert "false_positive"[5] == '_';
  }

  /** fromRaw(s.name()) == s for every state. */
  lemma NameRoundTrip(s: AlertState)
    ensures FromRaw(Some(Name(s))) == s
  {
    match s
    case OPEN => assert Normalize("OPEN") == "open";
    case FALSE_POSITIVE => assert Normalize("FALSE_POSITIVE") == "false positive";
    case SUPPRESSED => assert Normalize("SUPPRESSED") == "suppressed";
    case FIXED => assert Normalize("FIXED") == "fixed";
    case CONFIRM => assert Normalize("CONFIRM") == "confirm";
  }

  /** The dismissal reason marks a false positive when it mentions "false positive" or "inaccurate". */
  predicate ReasonSaysFalsePositive(reason: string) {
    Contains(reason, "false positive") || Contains(reason, "inaccurate")
  }

  const ReasonAwareTools: set<string> := {"CODE_SCANNING", "SECRET_SCANNING", "DEPENDABOT"}

  /**
   * The three-argument AlertState.fromRaw used by the parser. Only
   * "dismissed" looks at the tool (upper-cased) and the reason
   * (lower-cased): the three known tools map a reason mentioning
   * "false positive" or "inaccurate" to FALSE_POSITIVE and every other
   * reason to SUPPRESSED; any other tool, or none, gives SUPPRESSED. Every
   * word outside open/new, fixed/resolved, confirm/acknowledged and
   * dismissed gives OPEN.
   */
  function FromRawForTool(rawState: Option<string>, toolType: Option<string>,
                          dismissedReason: Option<string>): (r: AlertState)
    ensures (rawState == None || rawState == Some("")) ==> r == OPEN
    ensures rawState.Some? && Normalize(rawState.value) in FixedWords ==> r == FIXED
    ensures rawState.Some? && Normalize(rawState.value) in ConfirmWords ==> r == CONFIRM
    ensures (r == FALSE_POSITIVE || r == SUPPRESSED) <==>
      rawState.Some? && Normalize(rawState.value) == "dismissed"
    ensures r == FALSE_POSITIVE <==>
      && rawState.Some? && Normalize(rawState.value) == "dismissed"
      && ToUpper(toolType.GetOr("")) in ReasonAwareTools
      && ReasonSaysFalsePositive(ToLower(dismissedReason.GetOr("")))
    ensures r == OPEN <==>
      (rawState == None || Normalize(rawState.value) !in FixedWords + ConfirmWords + {"dismissed"})
  {
    if rawState == None || rawState.value == "" then OPEN
    else
      var w := Normalize(rawState.value);
      if w in OpenWords then OPEN
      else if w in FixedWords then FIXED
      else if w in ConfirmWords then CONFIRM
      else if w == "dismissed" then
        var tool := ToUpper(toolType.GetOr(""));
        var reason := ToLower(dismissedReason.GetOr(""));
        if tool == "CODE_SCANNING" || tool == "SECRET_SCANNING" then
          if Contains(reason, "false positive") || Contains(reason, "inaccurate") then FALSE_POSITIVE
          else SUPPRESSED
        else if tool == "DEPENDABOT" then
          if Contains(reason, "inaccurate") || Contains(reason, "false positive") then FALSE_POSITIVE
          else SUPPRESSED
        else SUPPRESSED
      else OPEN
  }

  /** Outside "dismissed" the tool and the reason play no part in the result. */
  lemma ContextOnlyForDismissed(rawState: Option<string>, t1: Option<string>, r1: Option<string>,
                                t2: Option<string>, r2: Option<string>)
    requires rawState == None || Normalize(rawState.value) != "dismissed"
    ensures FromRawForTool(rawState, t1, r1) == FromRawForTool(rawState, t2, r2)
  {
  }

  /**
   * The two overloads agree on every word except the ones only the
   * one-argument table knows (dismissed, the false-positive words and the
   * suppressed words).
   */
  lemma OverloadsAgree(raw: Option<string>, toolType: Option<string>, reason: Option<string>)
    requires raw == None || Normalize(raw.value) !in SuppressedWords + FalsePositiveWords
    ensures FromRawForTool(raw, toolType, reason) == FromRaw(raw)
  {
  }

  /** ... and they part ways on "false_positive", which the parser's overload sends to OPEN. */
  lemma OverloadsDisagreeOnFalsePositive(toolType: Option<string>, reason: Option<string>)
    ensures FromRaw(Some("false_positive")) == FALSE_POSITIVE
    ensures FromRawForTool(Some("false_positive"), toolType, reason) == OPEN
  {
    assert Normalize("false_positive") == "false positive";
  }

  /** A Dependabot alert dismissed as "inaccurate" is a false positive. */
  lemma DependabotInaccurate()
    ensures FromRawForTool(Some("dismissed"), Some("DEPENDABOT"), Some("inaccurate")) == FALSE_POSITIVE
  {
    assert Normalize("dismissed") == "dismissed";
    assert ToUpper("DEPENDABOT") == "DEPENDABOT";
    assert ToLower("inaccurate") == "inaccurate";
    assert OccursAt("inaccurate", "inaccurate", 0);
  }

  /** An "open" alert is OPEN whatever the tool and the dismissal reason. */
  lemma OpenWhateverContext(toolType: Option<string>, reason: Option<string>)
    ensures FromRawForTool(Some("open"), toolType, reason) == OPEN
  {
    assert Normalize("open") == "open";
  }
}

/**
 * The record builder and the three tool adapters of the parser service
 * (convertToFindings and the fill*Data methods with their string helpers).
 * Each imperative method of the source is paired with the function that
 * specifies the record it leaves behind.
 */
module Adapters {
  import opened Wrappers
  import opened Text
  import opened Json
  import opened Severities
  import opened AlertStates
  import opened FindingsRecord

  // ---------------------------------------------------------------------
  // CWE extraction
  // ---------------------------------------------------------------------

  /** A tag that names a CWE: a string holding "cwe-" in any case. */
  predicate IsCweTag(item: Json) {
    item.JStr? && Contains(ToLower(item.s), "cwe-")
  }

  /** The upper-cased tail of a CWE tag, from its first "cwe-" (in any case) on. */
  function CweSuffix(tag: string): (r: string)
    requires Contains(ToLower(tag), "cwe-")
    ensures |r| >= 4 && r[..4] == "CWE-"
  {
    var lower := ToLower(tag);
    var i := IndexOf(lower, "cwe-");
    UpperOfCweTail(lower, i);
    ToUpper(lower[i..])
  }

  /** Upper-casing a tail that starts with "cwe-" gives one that starts with "CWE-". */
  lemma UpperOfCweTail(lower: string, i: int)
    requires 0 <= i <= |lower| && OccursAt(lower, "cwe-", i)
    ensures |ToUpper(lower[i..])| >= 4 && ToUpper(lower[i..])[..4] == "CWE-"
  {
    var r := ToUpper(lower[i..]);
    assert lower[i..i + 4] == "cwe-";
    assert forall k :: 0 <= k < 4 ==> r[k] == UpperChar("cwe-"[k]);
  }

  /** The tail is cut from the tag itself: matching ignores case, and only the tail's case changes. */
  lemma CweSuffixOfTag(tag: string)
    requires Contains(ToLower(tag), "cwe-")
    ensures CweSuffix(tag) == ToUpper(tag[IndexOf(ToLower(tag), "cwe-")..])
  {
    var lower := ToLower(tag);
    var i := IndexOf(lower, "cwe-");
    assert lower[i..] == ToLower(tag[i..]);
    UpperOfLower(tag[i..]);
  }

  /** The parts parseCweFromTags collects from a tag list, in list order. */
  function CweParts(items: seq<Json>): seq<string>
  {
    if |items| == 0 then []
    else
      var last := items[|items| - 1];
      CweParts(items[..|items| - 1]) + (if IsCweTag(last) then [CweSuffix(last.s)] else [])
  }

  /** The specification of parseCweFromTags. */
  function CweFromTags(tags: Json): string {
    if tags.JList? && |CweParts(tags.items)| > 0 then Join(CweParts(tags.items), ", ") else ""
  }

  /** Each collected part starts with "CWE-", and there are no more parts than items. */
  lemma {:induction false} CwePartsShape(items: seq<Json>)
    ensures forall p :: p in CweParts(items) ==> |p| >= 4 && p[..4] == "CWE-"
    ensures |CweParts(items)| <= |items|
  {
    if |items| > 0 {
      CwePartsShape(items[..|items| - 1]);
    }
  }

  /** Every CWE tag of the list contributes its part. */
  lemma {:induction false} CwePartsComplete(items: seq<Json>, k: nat)
    requires k < |items| && IsCweTag(items[k])
    ensures CweSuffix(items[k].s) in CweParts(items)
  {
    var init := items[..|items| - 1];
    if k < |items| - 1 {
      assert init[k] == items[k];
      CwePartsComplete(init, k);
    }
  }

  /** A single item contributes its part exactly when it is a CWE tag. */
  lemma CwePartsOne(item: Json)
    ensures CweParts([item]) == if IsCweTag(item) then [CweSuffix(item.s)] else []
  {
    assert [item][..0] == [];
  }

  /** The parts of two lists one after the other are the parts of each, in list order. */
  lemma {:induction false} CwePartsAppend(a: seq<Json>, b: seq<Json>)
    ensures CweParts(a + b) == CweParts(a) + CweParts(b)
    decreases |b|
  {
    if |b| == 0 {
      assert a + b == a;
    } else {
      var init := b[..|b| - 1];
      var last := b[|b| - 1];
      var tail := if IsCweTag(last) then [CweSuffix(last.s)] else [];
      CwePartsAppend(a, init);
      assert (a + b)[..|a + b| - 1] == a + init && (a + b)[|a + b| - 1] == last;
      assert CweParts(a + b) == CweParts(a + init) + tail;
      assert CweParts(b) == CweParts(init) + tail;
      assert CweParts(a) + CweParts(init) + tail == CweParts(a) + (CweParts(init) + tail);
    }
  }

  /** Every collected part is the suffix of some CWE tag of the list: other items, strings or not, give nothing. */
  lemma {:induction false} CwePartsSound(items: seq<Json>, p: string)
    requires p in CweParts(items)
    ensures exists k :: 0 <= k < |items| && IsCweTag(items[k]) && p == CweSuffix(items[k].s)
  {
    var init := items[..|items| - 1];
    var last := items[|items| - 1];
    if IsCweTag(last) && p == CweSuffix(last.s) {
      assert IsCweTag(items[|items| - 1]);
    } else {
      assert p in CweParts(init);
      CwePartsSound(init, p);
      var k :| 0 <= k < |init| && IsCweTag(init[k]) && p == CweSuffix(init[k].s);
      assert items[k] == init[k];
    }
  }

  /** Nothing is collected exactly when no item is a CWE tag. */
  lemma {:induction false} CwePartsEmpty(items: seq<Json>)
    ensures CweParts(items) == [] <==> forall k :: 0 <= k < |items| ==> !IsCweTag(items[k])
  {
    if |items| > 0 {
      var init := items[..|items| - 1];
      CwePartsEmpty(init);
      if CweParts(items) == [] {
        forall k | 0 <= k < |items|
          ensures !IsCweTag(items[k])
        {
          if k < |items| - 1 {
            assert init[k] == items[k];
          }
        }
      }
    }
  }

  /**
   * parseCweFromTags returns "" exactly when its argument is not a list or
   * holds no CWE tag, and otherwise a text starting with "CWE-".
   */
  lemma CweFromTagsEmpty(tags: Json)
    ensures CweFromTags(tags) == "" <==>
      (!tags.JList? || forall k :: 0 <= k < |tags.items| ==> !IsCweTag(tags.items[k]))
    ensures CweFromTags(tags) != "" ==> |CweFromTags(tags)| >= 4 && CweFromTags(tags)[..4] == "CWE-"
  {
    if tags.JList? {
      CwePartsShape(tags.items);
      CwePartsEmpty(tags.items);
      var parts := CweParts(tags.items);
      if |parts| > 0 {
        assert parts[0] in parts;
        JoinNonEmpty(parts, ", ");
        JoinHead(parts, ", ");
      }
    }
  }

  lemma JoinHead(parts: seq<string>, sep: string)
    requires |parts| > 0
    ensures |Join(parts, sep)| >= |parts[0]| && Join(parts, sep)[..|parts[0]|] == parts[0]
  {
  }

  /** parseCweFromTags: the ArrayList accumulation over the tag list, then the ", " join. */
  method ParseCweFromTags(tagsObj: Json) returns (r: string)
    ensures r == CweFromTags(tagsObj)
  {
    if tagsObj.JList? {
      var list := tagsObj.items;
      var cwes: seq<string> := [];
      var i := 0;
      while i < |list|
        invariant 0 <= i <= |list|
        invariant cwes == CweParts(list[..i])
      {
        var item := list[i];
        assert list[..i + 1][..i] == list[..i];
        if item.JStr? {
          var tag := ToLower(item.s);
          var idx := IndexOf(tag, "cwe-");
          if idx >= 0 {
            var cwePart := ToUpper(tag[idx..]);
            cwes := cwes + [cwePart];
          }
        }
        i := i + 1;
      }
      assert list[..|list|] == list;
      if |cwes| > 0 {
        return Join(cwes, ", ");
      }
    }
    return "";
  }

  /**
   * parseCwe: the `cwe_id` of the first entry of a list of objects, read
   * null-safely; anything else gives "".
   */
  function ParseCwe(cwesObj: Json): (r: string)
    ensures !(cwesObj.JList? && |cwesObj.items| > 0 && cwesObj.items[0].JMap?) ==> r == ""
    ensures cwesObj.JList? && |cwesObj.items| > 0 && cwesObj.items[0].JMap? ==>
      r == SafeString(Lookup(cwesObj.items[0], ["cwe_id"]))
  {
    if cwesObj.JList? && |cwesObj.items| > 0 && cwesObj.items[0].JMap? then
      var cweId := Field(cwesObj.items[0].fields, "cwe_id");
      if cweId != JNull then Render(cweId) else ""
    else ""
  }

  /** Only the first entry of the list is read. */
  lemma ParseCweReadsFirstOnly(first: Json, rest1: seq<Json>, rest2: seq<Json>)
    ensures ParseCwe(JList([first] + rest1)) == ParseCwe(JList([first] + rest2))
  {
  }

  // ---------------------------------------------------------------------
  // Secret masking
  // ---------------------------------------------------------------------

  const MaskMarker: string := "...(masked)"

  /**
   * The masked form of a raw secret: empty stays empty, up to 8 characters
   * are kept verbatim, a longer secret keeps its first 8 characters followed
   * by "...(masked)".
   */
  function MaskSecret(raw: string): (r: string)
    ensures r == "" <==> raw == ""
    ensures |raw| <= 8 ==> r == raw
    ensures |raw| > 8 ==> |r| == 8 + |MaskMarker| && r[..8] == raw[..8] && r[8..] == MaskMarker
  {
    if raw == "" then "" else if |raw| > 8 then raw[..8] + MaskMarker else raw
  }

  function BoolText(b: bool): string {
    if b then "true" else "false"
  }

  /** The optional "; Resolution: " clause of the secret description. */
  function ResolutionClause(resolution: string): string {
    if resolution != "" then "; Resolution: " + resolution else ""
  }

  /** The optional "; Secret (masked): " clause, present exactly for a non-empty secret. */
  function SecretClause(rawSecret: string): (r: string)
    ensures r == "" <==> rawSecret == ""
  {
    var masked := MaskSecret(rawSecret);
    if masked != "" then "; Secret (masked): " + masked else ""
  }

  /** The description the StringBuilder of fillSecretScanningData composes. */
  function SecretDescription(secretType: string, validity: string, publiclyLeaked: bool,
                             pushProtectionBypassed: bool, resolution: string, rawSecret: string): string
  {
    "Secret Type: " + secretType
    + "; Validity: " + validity
    + "; Publicly Leaked: " + BoolText(publiclyLeaked)
    + "; Push Protection Bypassed: " + BoolText(pushProtectionBypassed)
    + ResolutionClause(resolution)
    + SecretClause(rawSecret)
  }

  /**
   * The description reveals at most the first 8 characters of a long
   * secret: two secrets longer than 8 that share those characters give the
   * same description.
   */
  lemma SecretRevealsOnlyPrefix(secretType: string, validity: string, leaked: bool, bypassed: bool,
                                resolution: string, s1: string, s2: string)
    requires |s1| > 8 && |s2| > 8 && s1[..8] == s2[..8]
    ensures SecretDescription(secretType, validity, leaked, bypassed, resolution, s1)
         == SecretDescription(secretType, validity, leaked, bypassed, resolution, s2)
  {
    var m1, m2 := MaskSecret(s1), MaskSecret(s2);
    assert m1 == m1[..8] + m1[8..];
    assert m2 == m2[..8] + m2[8..];
  }

  /** A 16-character secret is shown as its first 8 characters and the marker. */
  lemma SecretScenarioMask()
    ensures SecretClause("abcdefghijklmnop") == "; Secret (masked): abcdefgh...(masked)"
  {
  }

  // ---------------------------------------------------------------------
  // The adapters, as functions of the record before and the raw alert
  // ---------------------------------------------------------------------

  /** Code scanning reads rule.security_severity_level, falling back to rule.severity when blank. */
  function CodeScanningSeverityWord(alert: Json): string {
    var primary := SafeString(Lookup(alert, ["rule", "security_severity_level"]));
    if primary == "" then SafeString(Lookup(alert, ["rule", "severity"])) else primary
  }

  /** The fields fillCodeScanningData sets. */
  function FillCodeScanning(d: Doc, alert: Json): Doc {
    d.(severity := Some(Severities.FromRaw(Some(CodeScanningSeverityWord(alert)))),
       title := Some(SafeString(Lookup(alert, ["rule", "description"]))),
       description := Some(SafeString(Lookup(alert, ["rule", "full_description"]))),
       location := Some(SafeString(Lookup(alert, ["most_recent_instance", "location", "path"]))),
       cwe := Some(CweFromTags(Lookup(alert, ["rule", "tags"]))),
       cve := Some(""),
       cvss := Some(""))
  }

  /** Dependabot's location: the manifest path, or the package name when that is blank. */
  function DependabotLocation(alert: Json): string {
    var manifest := SafeString(Lookup(alert, ["dependency", "manifest_path"]));
    if manifest != "" then manifest else SafeString(Lookup(alert, ["dependency", "package", "name"]))
  }

  /** The fields fillDependabotData sets. */
  function FillDependabot(d: Doc, alert: Json): Doc {
    d.(severity := Some(Severities.FromRaw(Some(SafeString(Lookup(alert, ["security_advisory", "severity"]))))),
       cve := Some(SafeString(Lookup(alert, ["security_advisory", "cve_id"]))),
       title := Some(SafeString(Lookup(alert, ["security_advisory", "summary"]))),
       description := Some(SafeString(Lookup(alert, ["security_advisory", "description"]))),
       cwe := Some(ParseCwe(Lookup(alert, ["security_advisory", "cwes"]))),
       cvss := Some(SafeString(Lookup(alert, ["security_advisory", "cvss", "score"]))),
       location := Some(DependabotLocation(alert)))
  }

  /** A flag read as `instanceof Boolean ? value : false`. */
  function FlagField(alert: Json, key: string): bool {
    var v := Get(alert, key);
    v.JBool? && v.b
  }

  /** The display name of the secret type, falling back to secret_type when blank. */
  function SecretTypeDisplay(alert: Json): string {
    var display := SafeString(Get(alert, "secret_type_display_name"));
    if display == "" then SafeString(Get(alert, "secret_type")) else display
  }

  /** The fields fillSecretScanningData sets. */
  function FillSecretScanning(d: Doc, alert: Json): Doc {
    d.(severity := Some(if FlagField(alert, "publicly_leaked") then CRITICAL else HIGH),
       title := Some("Secret Scanning Alert: " + SecretTypeDisplay(alert)),
       description := Some(SecretDescription(
         SafeString(Get(alert, "secret_type")), SafeString(Get(alert, "validity")),
         FlagField(alert, "publicly_leaked"), FlagField(alert, "push_protection_bypassed"),
         SafeString(Get(alert, "resolution")), SafeString(Get(alert, "secret")))),
       cve := Some(""),
       cwe := Some(""),
       cvss := Some(""),
       location := Some(SafeString(Get(alert, "locations_url"))))
  }

  /** The default branch for any other tool type. */
  function FillUnknown(d: Doc): Doc {
    d.(severity := Some(MEDIUM), title := Some("Unknown Alert"), description := Some(""),
       cve := Some(""), cwe := Some(""), cvss := Some(""), location := Some(""))
  }

  /** The common fields convertToFindings sets before dispatching on the tool type. */
  function CommonFields(toolType: Option<string>, alert: Json, id: string): Doc {
    Blank.(id := Some(id),
           toolType := toolType,
           ticketId := None,
           alertNumber := Some(SafeString(Get(alert, "number"))),
           createdAt := Some(SafeString(Get(alert, "created_at"))),
           updatedAt := Some(SafeString(Get(alert, "updated_at"))),
           url := Some(SafeString(Get(alert, "html_url"))),
           state := Some(AlertStates.FromRawForTool(Some(SafeString(Get(alert, "state"))), toolType,
                                                    Some(SafeString(Get(alert, "dismissed_reason"))))))
  }

  /**
   * The record convertToFindings builds for a tool type and an alert, with
   * `id` standing for the UUID it draws. The dispatch is total: an unknown
   * tool type still yields a record with a severity and a state.
   */
  function BuildDoc(toolType: string, alert: Json, id: string): (r: Doc)
    ensures r.id == Some(id) && r.toolType == Some(toolType)
    ensures r.severity.Some? && r.state.Some? && r.title.Some? && r.alertNumber.Some?
    ensures r.updatedAt.Some? && r.ticketId == None && r.additionalData == None
    ensures r.alertNumber == Some(SafeString(Get(alert, "number")))
    ensures toolType !in {"CODE_SCANNING", "DEPENDABOT", "SECRET_SCANNING"} ==>
      r.severity == Some(MEDIUM) && r.title == Some("Unknown Alert")
  {
    var base := CommonFields(Some(toolType), alert, id);
    if toolType == "CODE_SCANNING" then FillCodeScanning(base, alert)
    else if toolType == "DEPENDABOT" then FillDependabot(base, alert)
    else if toolType == "SECRET_SCANNING" then FillSecretScanning(base, alert)
    else FillUnknown(base)
  }

  /** convertToFindings throws (a NullPointerException) for a null alert or a null tool type. */
  predicate ConvertFails(toolType: Option<string>, alert: Json) {
    toolType.None? || !alert.JMap?
  }

  // ---------------------------------------------------------------------
  // The adapters as the source runs them: setters on one Findings object
  // ---------------------------------------------------------------------

  method FillCodeScanningData(f: Findings, alert: Json)
    modifies f
    ensures f.Value() == FillCodeScanning(old(f.Value()), alert)
    ensures f.additionalData == old(f.additionalData)
  {
    ghost var d := FillCodeScanning(f.Value(), alert);
    var j := GetNested(alert, ["rule", "security_severity_level"]);
    var rawSeverity := SafeString(j);
    if rawSeverity == "" {
      j := GetNested(alert, ["rule", "severity"]);
      rawSeverity := SafeString(j);
    }
    assert rawSeverity == CodeScanningSeverityWord(alert);
    f.SetSeverity(Some(Severities.FromRaw(Some(rawSeverity))));
    j := GetNested(alert, ["rule", "description"]);
    f.SetTitle(Some(SafeString(j)));
    j := GetNested(alert, ["rule", "full_description"]);
    f.SetDescription(Some(SafeString(j)));
    var path := GetNested(alert, ["most_recent_instance", "location", "path"]);
    f.SetLocation(Some(if path != JNull then Render(path) else ""));
    var tagsObj := GetNested(alert, ["rule", "tags"]);
    var cwe := ParseCweFromTags(tagsObj);
    f.SetCwe(Some(cwe));
    f.SetCve(Some(""));
    f.SetCvss(Some(""));
    assert f.Value() == d;
  }

  method FillDependabotData(f: Findings, alert: Json)
    modifies f
    ensures f.Value() == FillDependabot(old(f.Value()), alert)
    ensures f.additionalData == old(f.additionalData)
  {
    var j := GetNested(alert, ["security_advisory", "severity"]);
    f.SetSeverity(Some(Severities.FromRaw(Some(SafeString(j)))));
    j := GetNested(alert, ["security_advisory", "cve_id"]);
    f.SetCve(Some(SafeString(j)));
    j := GetNested(alert, ["security_advisory", "summary"]);
    f.SetTitle(Some(SafeString(j)));
    j := GetNested(alert, ["security_advisory", "description"]);
    f.SetDescription(Some(SafeString(j)));
    j := GetNested(alert, ["security_advisory", "cwes"]);
    f.SetCwe(Some(ParseCwe(j)));
    j := GetNested(alert, ["security_advisory", "cvss", "score"]);
    f.SetCvss(Some(SafeString(j)));
    j := GetNested(alert, ["dependency", "manifest_path"]);
    var manifest := SafeString(j);
    if manifest != "" {
      f.SetLocation(Some(manifest));
    } else {
      j := GetNested(alert, ["dependency", "package", "name"]);
      f.SetLocation(Some(SafeString(j)));
    }
  }

  method FillSecretScanningData(f: Findings, alert: Json)
    modifies f
    ensures f.Value() == FillSecretScanning(old(f.Value()), alert)
    ensures f.additionalData == old(f.additionalData)
  {
    ghost var d := FillSecretScanning(f.Value(), alert);
    var leakedObj := Get(alert, "publicly_leaked");
    var publiclyLeaked := if leakedObj.JBool? then leakedObj.b else false;
    assert publiclyLeaked == FlagField(alert, "publicly_leaked");
    f.SetSeverity(Some(if publiclyLeaked then CRITICAL else HIGH));
    var secretTypeDisplay := SafeString(Get(alert, "secret_type_display_name"));
    if secretTypeDisplay == "" {
      secretTypeDisplay := SafeString(Get(alert, "secret_type"));
    }
    assert secretTypeDisplay == SecretTypeDisplay(alert);
    f.SetTitle(Some("Secret Scanning Alert: " + secretTypeDisplay));
    var validity := SafeString(Get(alert, "validity"));
    var resolution := SafeString(Get(alert, "resolution"));
    var bypassedObj := Get(alert, "push_protection_bypassed");
    var pushProtectionBypassed := if bypassedObj.JBool? then bypassedObj.b else false;
    assert pushProtectionBypassed == FlagField(alert, "push_protection_bypassed");
    var rawSecret := SafeString(Get(alert, "secret"));
    var desc := ComposeSecretDescription(SafeString(Get(alert, "secret_type")), validity, publiclyLeaked,
                                         pushProtectionBypassed, resolution, rawSecret);
    f.SetDescription(Some(desc));
    SetSecretTail(f, SafeString(Get(alert, "locations_url")));
    assert f.Value() == d;
  }

  /** The fields fillSecretScanningData sets last: no CVE, CWE or CVSS, and the locations URL. */
  method SetSecretTail(f: Findings, location: string)
    modifies f
    ensures f.Value() == old(f.Value()).(cve := Some(""), cwe := Some(""), cvss := Some(""), location := Some(location))
    ensures f.additionalData == old(f.additionalData)
  {
    f.SetCve(Some(""));
    f.SetCwe(Some(""));
    f.SetCvss(Some(""));
    f.SetLocation(Some(location));
  }

  /** The masking and the StringBuilder of fillSecretScanningData. */
  method ComposeSecretDescription(secretType: string, validity: string, publiclyLeaked: bool,
                                  pushProtectionBypassed: bool, resolution: string, rawSecret: string)
    returns (desc: string)
    ensures desc == SecretDescription(secretType, validity, publiclyLeaked, pushProtectionBypassed,
                                      resolution, rawSecret)
  {
    var maskedSecret := if rawSecret == "" then "" else
      if |rawSecret| > 8 then rawSecret[..8] + "...(masked)" else rawSecret;
    assert maskedSecret == MaskSecret(rawSecret);
    desc := "Secret Type: " + secretType;
    desc := desc + "; Validity: " + validity;
    desc := desc + "; Publicly Leaked: " + BoolText(publiclyLeaked);
    desc := desc + "; Push Protection Bypassed: " + BoolText(pushProtectionBypassed);
    desc := AppendIfPresent(desc, "; Resolution: ", resolution);
    desc := AppendIfPresent(desc, "; Secret (masked): ", maskedSecret);
  }

  /** An optional StringBuilder clause: `caption` and `value` appended only when `value` is not empty. */
  method AppendIfPresent(sb: string, caption: string, value: string) returns (r: string)
    ensures value == "" ==> r == sb
    ensures value != "" ==> r == sb + (caption + value)
  {
    r := sb;
    if value != "" {
      r := r + caption + value;
      assert r == sb + (caption + value);
    }
  }

  /**
   * convertToFindings, with `id` for the UUID it draws. A null alert or a
   * null tool type makes the source throw; the model answers `null` then.
   */
  method ConvertToFindings(toolType: Option<string>, alert: Json, id: string) returns (f: Findings?)
    ensures f == null <==> ConvertFails(toolType, alert)
    ensures f != null ==> fresh(f) && f.additionalData == null
    ensures f != null ==> f.Value() == BuildDoc(toolType.value, alert, id)
  {
    var g := new Findings();
    g.SetId(Some(id));
    g.SetToolType(toolType);
    g.SetTicketId(None);
    if !alert.JMap? {
      return null;
    }
    var numberObj := Get(alert, "number");
    g.SetAlertNumber(Some(if numberObj != JNull then Render(numberObj) else ""));
    g.SetCreatedAt(Some(SafeString(Get(alert, "created_at"))));
    g.SetUpdatedAt(Some(SafeString(Get(alert, "updated_at"))));
    g.SetUrl(Some(SafeString(Get(alert, "html_url"))));
    var rawState := SafeString(Get(alert, "state"));
    var rawDismissedReason := SafeString(Get(alert, "dismissed_reason"));
    g.SetState(Some(AlertStates.FromRawForTool(Some(rawState), toolType, Some(rawDismissedReason))));
    assert g.Value() == CommonFields(toolType, alert, id);
    if toolType.None? {
      return null;
    }
    if toolType.value == "CODE_SCANNING" {
      FillCodeScanningData(g, alert);
    } else if toolType.value == "DEPENDABOT" {
      FillDependabotData(g, alert);
    } else if toolType.value == "SECRET_SCANNING" {
      FillSecretScanningData(g, alert);
    } else {
      g.SetSeverity(Some(MEDIUM));
      g.SetTitle(Some("Unknown Alert"));
      g.SetDescription(Some(""));
      g.SetCve(Some(""));
      g.SetCwe(Some(""));
      g.SetCvss(Some(""));
      g.SetLocation(Some(""));
    }
    return g;
  }

  // ---------------------------------------------------------------------
  // Worked alerts
  // ---------------------------------------------------------------------

  /** A code-scanning alert #42 for "SQL Injection" rated "high" and open. */
  lemma CodeScanningScenario(id: string)
    ensures var d := BuildDoc("CODE_SCANNING",
      JMap([("number", JInt(42)), ("state", JStr("open")),
            ("rule", JMap([("description", JStr("SQL Injection")),
                           ("security_severity_level", JStr("high"))]))]), id);
      d.alertNumber == Some("42") && d.title == Some("SQL Injection")
      && d.severity == Some(HIGH) && d.state == Some(OPEN)
  {
    var rule := JMap([("description", JStr("SQL Injection")), ("security_severity_level", JStr("high"))]);
    var alert := JMap([("number", JInt(42)), ("state", JStr("open")), ("rule", rule)]);
    CodeScanningScenarioReads(alert);
    AlertStates.OpenWhateverContext(Some("CODE_SCANNING"), Some(SafeString(Get(alert, "dismissed_reason"))));
    Severities.HighWord();
  }

  /** What the builder reads from the alert of CodeScanningScenario. */
  lemma CodeScanningScenarioReads(alert: Json)
    requires alert == JMap([("number", JInt(42)), ("state", JStr("open")),
                            ("rule", JMap([("description", JStr("SQL Injection")),
                                           ("security_severity_level", JStr("high"))]))])
    ensures SafeString(Get(alert, "number")) == "42" && SafeString(Get(alert, "state")) == "open"
    ensures CodeScanningSeverityWord(alert) == "high"
    ensures SafeString(Lookup(alert, ["rule", "description"])) == "SQL Injection"
  {
    var rule := JMap([("description", JStr("SQL Injection")), ("security_severity_level", JStr("high"))]);
    FieldLastBinding(alert.fields, "number", 0);
    assert IntToString(42) == "42" by {
      assert NatToString(42) == NatToString(4) + [DigitChar(2)];
    }
    FieldLastBinding(alert.fields, "state", 1);
    FieldLastBinding(alert.fields, "rule", 2);
    assert Lookup(alert, ["rule", "security_severity_level"]) == Lookup(rule, ["security_severity_level"]);
    assert Lookup(rule, ["security_severity_level"]) == JStr("high");
    assert Lookup(alert, ["rule", "description"]) == Lookup(rule, ["description"]) == JStr("SQL Injection");
  }

  /** The common fields of a Dependabot alert dismissed as "inaccurate" give a false positive. */
  lemma DependabotInaccurateState(alert: Json, id: string)
    requires Get(alert, "state") == JStr("dismissed")
    requires Get(alert, "dismissed_reason") == JStr("inaccurate")
    ensures CommonFields(Some("DEPENDABOT"), alert, id).state == Some(FALSE_POSITIVE)
  {
    DependabotInaccurate();
  }

  /** fillDependabotData takes its severity from the advisory alone. */
  lemma DependabotCriticalSeverity(d: Doc, alert: Json)
    requires Lookup(alert, ["security_advisory", "severity"]) == JStr("critical")
    ensures FillDependabot(d, alert).severity == Some(CRITICAL)
  {
    assert ToLower("critical") == "critical";
  }

  /** The record for a Dependabot alert is the common fields overlaid by fillDependabotData. */
  lemma DependabotDispatch(alert: Json, id: string)
    ensures BuildDoc("DEPENDABOT", alert, id) == FillDependabot(CommonFields(Some("DEPENDABOT"), alert, id), alert)
  {
  }

  /**
   * A Dependabot alert dismissed as "inaccurate" whose advisory says
   * "critical" becomes a critical false positive, whatever else it holds.
   */
  lemma DependabotScenario(alert: Json, id: string)
    requires Get(alert, "state") == JStr("dismissed")
    requires Get(alert, "dismissed_reason") == JStr("inaccurate")
    requires Lookup(alert, ["security_advisory", "severity"]) == JStr("critical")
    ensures var d := BuildDoc("DEPENDABOT", alert, id);
      d.severity == Some(CRITICAL) && d.state == Some(FALSE_POSITIVE)
  {
    DependabotInaccurateState(alert, id);
    DependabotCriticalSeverity(CommonFields(Some("DEPENDABOT"), alert, id), alert);
    DependabotDispatch(alert, id);
  }

  /** A publicly leaked secret of 16 characters: critical, and only its first 8 characters are shown. */
  lemma SecretScenario(id: string)
    ensures var d := BuildDoc("SECRET_SCANNING",
      JMap([("publicly_leaked", JBool(true)), ("secret", JStr("abcdefghijklmnop"))]), id);
      && d.severity == Some(CRITICAL)
      && d.description.Some?
      && var desc := d.description.value;
         |desc| >= 38 && desc[|desc| - 38..] == "; Secret (masked): abcdefgh...(masked)"
  {
    var alert := JMap([("publicly_leaked", JBool(true)), ("secret", JStr("abcdefghijklmnop"))]);
    SecretScenarioReads(alert);
    SecretScenarioMask();
  }

  /** What the builder reads from the alert of SecretScenario. */
  lemma SecretScenarioReads(alert: Json)
    requires alert == JMap([("publicly_leaked", JBool(true)), ("secret", JStr("abcdefghijklmnop"))])
    ensures Get(alert, "publicly_leaked") == JBool(true)
    ensures SafeString(Get(alert, "secret")) == "abcdefghijklmnop"
  {
    FieldLastBinding(alert.fields, "publicly_leaked", 0);
    FieldLastBinding(alert.fields, "secret", 1);
  }
}

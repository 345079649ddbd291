# Security-alert parser, modelled in Dafny

This project models the core of a parser service. The service ingests
security alerts exported by three scanning tools: code scanning,
Dependabot and secret scanning. For one batch it:

- reads a JSON file of raw alerts;
- derives the repository owner and name from the file's folder;
- converts every alert into one canonical `Findings` record;
- reconciles each record against the tenant's stored records.

Reconciling a record means one of three things: skip it, update the stored
record in place, or index it as new. Once the batch ends, the service sends
exactly one acknowledgement saying whether the batch succeeded.

The model has twelve modules, one file each:

| module | models |
|---|---|
| `Wrappers` | `Option` |
| `Text` | the `java.lang.String` operations the parser uses, on ASCII |
| `Json` | the raw alert as Jackson hands it over; `Map.get`, `getNested` and `safeString` |
| `Severities` | `Severity` and its `fromRaw` |
| `AlertStates` | `AlertState` and both `fromRaw` overloads |
| `FindingsRecord` | `Findings` as a class with one setter per field; `Value()` is the record's content at one moment |
| `Fingerprints` | the identity key and the mutable-state key, with Java's `String.hashCode` written out in 32-bit arithmetic |
| `Adapters` | `convertToFindings`, the three `fill*Data` methods, `parseCweFromTags`, `parseCwe` and secret masking |
| `Paths` | `parseOwnerRepoFromPath` (through `java.io.File`'s path normalisation and `getParent`) and `deduceToolType` |
| `Store` | an in-memory document store with upsert semantics and a log of write calls |
| `Reconciler` | the decision of `deduplicateAndStore` as a function |
| `Service` | the batch loop and the acknowledgement of `parseFileAndIndex`; the service object's methods |

Code that mutates a `Findings` object or the store is written as methods
on classes. Each such method is proved against a function that gives the
resulting value: `FillCodeScanning`, `BuildDoc`, `Step`, `Batch` and the
others. The properties are then proved about those functions.

`parseOwnerRepoFromPath` runs inside the batch's `try`. Its fallback to
`unknownOwner`/`unknownRepo` covers only a folder name without '-'. A path
with no parent, or whose parent splits into fewer than two names, throws
(a NullPointerException or an index out of bounds), and the batch is then
acknowledged as failed before any alert is written
(`Paths.OwnerRepoSucceedsIff`, `Service.ShallowPathWritesNothing`).

## Model

| member | source | states |
|---|---|---|
| Text.ToLower | src/main/java/com/example/capstone/parser/model/Severity.java:17 | `toLowerCase` keeps the length and lowers each ASCII letter in place |
| Text.ToUpper | src/main/java/com/example/capstone/parser/service/ParserService.java:294 | `toUpperCase` keeps the length and raises each ASCII letter in place |
| Text.ReplaceChar | src/main/java/com/example/capstone/parser/model/AlertState.java:19 | `replace("_", " ")` keeps the length and swaps exactly the `_` characters |
| Text.LowerOfUpper | src/main/java/com/example/capstone/parser/model/Severity.java:17 | lower-casing forgets any earlier upper-casing |
| Text.LowerIdempotent | src/main/java/com/example/capstone/parser/service/ParserService.java:268 | lower-casing twice is lower-casing once |
| Text.UpperOfLower | src/main/java/com/example/capstone/parser/service/ParserService.java:291-294 | upper-casing forgets an earlier lower-casing |
| Text.UpperSuffix | src/main/java/com/example/capstone/parser/service/ParserService.java:294 | upper-casing commutes with `substring(idx)` |
| Text.IndexOfFrom | src/main/java/com/example/capstone/parser/service/ParserService.java:292 | `indexOf(sub, from)`: -1 when no occurrence exists at or after `from`, otherwise an occurrence with none before it |
| Text.IndexOf | src/main/java/com/example/capstone/parser/service/ParserService.java:292 | `indexOf(sub)` is -1 exactly when `sub` occurs nowhere; otherwise it is the first occurrence |
| Text.ContainsIff | src/main/java/com/example/capstone/parser/model/AlertState.java:73 | `contains` holds exactly when some position holds an occurrence |
| Text.IndexOfChar | src/main/java/com/example/capstone/parser/service/ParserService.java:254 | `indexOf("_")` is -1 exactly when the character is absent; otherwise it is the first index holding it |
| Text.LastIndexOfChar | src/main/java/com/example/capstone/parser/service/ParserService.java:258 | `lastIndexOf("-")` is -1 exactly when the character is absent; otherwise it is the last index holding it |
| Text.IndexOfCharAt | src/main/java/com/example/capstone/parser/service/ParserService.java:254 | an index holding the character with none before it is what `indexOf` returns |
| Text.LastIndexOfCharAt | src/main/java/com/example/capstone/parser/service/ParserService.java:258 | an index holding the character with none after it is what `lastIndexOf` returns |
| Text.JoinNonEmpty | src/main/java/com/example/capstone/parser/service/ParserService.java:300 | `String.join` of parts whose first is non-empty is non-empty |
| Text.Join | src/main/java/com/example/capstone/parser/service/ParserService.java:300 | `String.join(sep, parts)`; no ensures of its own: `SplitAllJoin` shows that joining undoes a split, `JoinNonEmpty` and `Adapters.JoinHead` that a join starts with its first part |
| Text.SplitAll | src/main/java/com/example/capstone/parser/service/ParserService.java:252 | a split yields at least one piece, and no piece holds the separator |
| Text.SplitAllJoin | src/main/java/com/example/capstone/parser/service/ParserService.java:252 | joining the pieces with the separator gives back the text |
| Text.DropTrailingEmpty | src/main/java/com/example/capstone/parser/service/ParserService.java:252 | the result is a prefix of the pieces that does not end in `""`, and only empty pieces are dropped |
| Text.JavaSplit | src/main/java/com/example/capstone/parser/service/ParserService.java:252 | `split(Pattern.quote(sep))` yields pieces free of the separator |
| Text.DigitChar | src/main/java/com/example/capstone/parser/service/ParserService.java:119 | a decimal digit renders as a character between '0' and '9' |
| Text.NatToString | src/main/java/com/example/capstone/parser/service/ParserService.java:119 | a natural number renders as a non-empty string of decimal digits; `NatToStringValue` states which digits |
| Text.NatToStringValue | src/main/java/com/example/capstone/parser/service/ParserService.java:119 | the digits spell the number, most significant first, and start with '0' only for zero itself |
| Text.IntToString | src/main/java/com/example/capstone/parser/service/ParserService.java:141 | `Integer.toString` / `Long.toString` is never empty; `IntToStringValue` states its sign and digits |
| Text.IntToStringValue | src/main/java/com/example/capstone/parser/service/ParserService.java:141 | the text starts with '-' exactly for a negative number; the rest is the decimal digits of the magnitude, with no leading zero except in "0" |
| Json.Field | src/main/java/com/example/capstone/parser/service/ParserService.java:140 | `Map.get` answers a value bound to the key, and `null` when the key is absent |
| Json.FieldBefore | src/main/java/com/example/capstone/parser/service/ParserService.java:140 | the same, over the bindings before a position |
| Json.FieldLastBinding | src/main/java/com/example/capstone/parser/service/ParserService.java:279 | `Map.get` answers the value of the key's last binding, since Jackson's map overwrites a repeated key |
| Json.Get | src/main/java/com/example/capstone/parser/service/ParserService.java:140 | `alert.get(key)` is a one-key `getNested` |
| Json.SafeString | src/main/java/com/example/capstone/parser/service/ParserService.java:320-322 | `null` reads as `""`, a string as itself, an integer as its decimal text |
| Json.Render | src/main/java/com/example/capstone/parser/service/ParserService.java:321 | `Object.toString` of a parsed value; no ensures of its own: `SafeString` states what it gives for null, strings and integers |
| Json.Lookup | src/main/java/com/example/capstone/parser/service/ParserService.java:275-283 | what `getNested` returns; no ensures of its own: `LookupNull`, `LookupAppend` and `LookupOne` characterise it, and `GetNested` is proved equal to it |
| Json.LookupNull | src/main/java/com/example/capstone/parser/service/ParserService.java:278-280 | walking a path from `null` gives `null`; a missing prefix never throws |
| Json.LookupAppend | src/main/java/com/example/capstone/parser/service/ParserService.java:275-283 | following `p + q` is following `p`, then `q` from where `p` ended |
| Json.LookupOne | src/main/java/com/example/capstone/parser/service/ParserService.java:279 | a one-key path on an object is `Map.get` |
| Json.GetNested | src/main/java/com/example/capstone/parser/service/ParserService.java:275-283 | the `getNested` loop returns what `Lookup` specifies: `null` once it leaves the objects or meets a missing key |
| Severities.FromRaw | src/main/java/com/example/capstone/parser/model/Severity.java:11-41 | `null` and `""` give MEDIUM; otherwise each severity is returned exactly when the lower-cased word is in its synonym set; every other word gives MEDIUM |
| Severities.CaseInsensitive | src/main/java/com/example/capstone/parser/model/Severity.java:17 | any casing of a word gives the same severity as its lower-case form |
| Severities.NameRoundTrip | src/main/java/com/example/capstone/parser/model/Severity.java:3-40 | `fromRaw(s.name()) == s` for every severity |
| Severities.NameInjective | src/main/java/com/example/capstone/parser/model/Severity.java:3-9 | distinct severities have distinct names, and no name holds the pipe character |
| Severities.HighWord | src/main/java/com/example/capstone/parser/model/Severity.java:23-25 | the word "high" gives HIGH |
| AlertStates.Normalize | src/main/java/com/example/capstone/parser/model/AlertState.java:19 | the normalised state never holds '_' |
| AlertStates.FromRaw | src/main/java/com/example/capstone/parser/model/AlertState.java:15-44 | one-argument overload: `null` and `""` give OPEN; each state is returned exactly when the normalised word is in its label set; everything else gives OPEN |
| AlertStates.UnderscoreLabelUnreachable | src/main/java/com/example/capstone/parser/model/AlertState.java:29 | the `case "false_positive"` label can never match, because normalising removes every '_' |
| AlertStates.NameRoundTrip | src/main/java/com/example/capstone/parser/model/AlertState.java:3-43 | `fromRaw(s.name()) == s` for every state |
| AlertStates.FromRawForTool | src/main/java/com/example/capstone/parser/model/AlertState.java:46-97 | three-argument overload: see the note after this table |
| AlertStates.ContextOnlyForDismissed | src/main/java/com/example/capstone/parser/model/AlertState.java:47-60 | outside "dismissed", the tool and the reason never change the result |
| AlertStates.OverloadsAgree | src/main/java/com/example/capstone/parser/model/AlertState.java:15-97 | the two overloads agree on every word except the dismissed, false-positive and suppressed words |
| AlertStates.OverloadsDisagreeOnFalsePositive | src/main/java/com/example/capstone/parser/model/AlertState.java:95-96 | "false_positive" is FALSE_POSITIVE for the one-argument overload and OPEN for the parser's overload |
| AlertStates.DependabotInaccurate | src/main/java/com/example/capstone/parser/model/AlertState.java:79-87 | a Dependabot alert dismissed as "inaccurate" is FALSE_POSITIVE |
| AlertStates.OpenWhateverContext | src/main/java/com/example/capstone/parser/model/AlertState.java:52-54 | "open" gives OPEN whatever the tool and the reason |
| FindingsRecord.DataMap.constructor | src/main/java/com/example/capstone/parser/service/ParserService.java:62 | a new HashMap is empty |
| FindingsRecord.DataMap.Put | src/main/java/com/example/capstone/parser/service/ParserService.java:63-65 | `put` binds the key and leaves every other binding unchanged |
| FindingsRecord.Findings.constructor | src/main/java/com/example/capstone/parser/model/Findings.java:7-32 | a new record has every field null, `additionalData` included |
| FindingsRecord.Findings.SetId | src/main/java/com/example/capstone/parser/model/Findings.java:38-40 | the record's content afterwards is the old content with only `id` replaced |
| FindingsRecord.Findings.SetTitle | src/main/java/com/example/capstone/parser/model/Findings.java:46-48 | only `title` changes |
| FindingsRecord.Findings.SetDescription | src/main/java/com/example/capstone/parser/model/Findings.java:54-56 | only `description` changes |
| FindingsRecord.Findings.SetToolType | src/main/java/com/example/capstone/parser/model/Findings.java:62-64 | only `toolType` changes |
| FindingsRecord.Findings.SetSeverity | src/main/java/com/example/capstone/parser/model/Findings.java:70-72 | only `severity` changes |
| FindingsRecord.Findings.SetState | src/main/java/com/example/capstone/parser/model/Findings.java:78-80 | only `state` changes |
| FindingsRecord.Findings.SetCreatedAt | src/main/java/com/example/capstone/parser/model/Findings.java:86-88 | only `createdAt` changes |
| FindingsRecord.Findings.SetUpdatedAt | src/main/java/com/example/capstone/parser/model/Findings.java:94-96 | only `updatedAt` changes |
| FindingsRecord.Findings.SetUrl | src/main/java/com/example/capstone/parser/model/Findings.java:102-104 | only `url` changes |
| FindingsRecord.Findings.SetCve | src/main/java/com/example/capstone/parser/model/Findings.java:110-112 | only `cve` changes |
| FindingsRecord.Findings.SetCwe | src/main/java/com/example/capstone/parser/model/Findings.java:118-120 | only `cwe` changes |
| FindingsRecord.Findings.SetCvss | src/main/java/com/example/capstone/parser/model/Findings.java:126-128 | only `cvss` changes |
| FindingsRecord.Findings.SetLocation | src/main/java/com/example/capstone/parser/model/Findings.java:134-136 | only `location` changes |
| FindingsRecord.Findings.SetTicketId | src/main/java/com/example/capstone/parser/model/Findings.java:150-152 | only `ticketId` changes |
| FindingsRecord.Findings.SetAlertNumber | src/main/java/com/example/capstone/parser/model/Findings.java:26-28 | only `alertNumber` changes |
| FindingsRecord.Findings.SetAdditionalData | src/main/java/com/example/capstone/parser/model/Findings.java:142-144 | the map reference is replaced wholesale; the record then reads that map's entries |
| Fingerprints.ToInt32 | src/main/java/com/example/capstone/parser/service/ParserService.java:119 | narrowing to `int` lands in the 32-bit range and agrees with the input modulo 2^32 |
| Fingerprints.HashCode | src/main/java/com/example/capstone/parser/service/ParserService.java:119 | `String.hashCode` is a 32-bit `int` |
| Fingerprints.ComputeUpdatableHash | src/main/java/com/example/capstone/parser/service/ParserService.java:122-128 | the StringBuilder appends yield the hash of the mutable-state composite |
| Fingerprints.HashText | src/main/java/com/example/capstone/parser/service/ParserService.java:119 | `String.valueOf(text.hashCode())`; no ensures of its own: its value is `IntToString` of `HashCode` |
| Fingerprints.CompositeString | src/main/java/com/example/capstone/parser/service/ParserService.java:116-118 | the identity composite; no ensures of its own: `CompositeInjective` and `CompositeReadsIdentityOnly` state what it tells apart and what it reads |
| Fingerprints.CompositeKeyHash | src/main/java/com/example/capstone/parser/service/ParserService.java:115-120 | `computeCompositeKeyHash`; no ensures of its own: it hashes `CompositeString`, and `CompositeReadsIdentityOnly` states what it reads |
| Fingerprints.UpdatableString | src/main/java/com/example/capstone/parser/service/ParserService.java:123-126 | the mutable-state composite; no ensures of its own: `UpdatableInjective`, `UpdatableReadsStateOnly` and `OmittedFieldCanAlias` state what it tells apart and what it reads |
| Fingerprints.UpdatableKeyHash | src/main/java/com/example/capstone/parser/service/ParserService.java:122-128 | the value of `computeUpdatableHash`; no ensures of its own: `ComputeUpdatableHash` is proved equal to it |
| Fingerprints.CompositeReadsIdentityOnly | src/main/java/com/example/capstone/parser/service/ParserService.java:115-119 | the identity key depends only on `alertNumber` and `title`, with null read as `""` |
| Fingerprints.UpdatableReadsStateOnly | src/main/java/com/example/capstone/parser/service/ParserService.java:122-127 | the mutable-state key depends only on severity, state and `updatedAt` |
| Fingerprints.CutAtSeparator | src/main/java/com/example/capstone/parser/service/ParserService.java:117 | two texts cut at a separator that neither head holds agree piece by piece |
| Fingerprints.CompositeInjective | src/main/java/com/example/capstone/parser/service/ParserService.java:116-118 | when neither alert number holds a pipe character, equal identity composites mean equal alert number and title (no claim about the hash) |
| Fingerprints.UpdatableInjective | src/main/java/com/example/capstone/parser/service/ParserService.java:123-126 | with all three fields set, equal mutable-state composites mean equal severity, state and `updatedAt` |
| Fingerprints.StateNameFacts | src/main/java/com/example/capstone/parser/model/AlertState.java:5-9 | distinct states have distinct names, and no name holds the pipe character |
| Fingerprints.OmittedFieldCanAlias | src/main/java/com/example/capstone/parser/service/ParserService.java:124-126 | a null field is omitted rather than replaced by a placeholder, so a record without a state can share its composite with one that has a state |
| Adapters.CweSuffix | src/main/java/com/example/capstone/parser/service/ParserService.java:291-294 | the part cut from a CWE tag starts with "CWE-" |
| Adapters.UpperOfCweTail | src/main/java/com/example/capstone/parser/service/ParserService.java:294 | upper-casing a tail that starts with "cwe-" gives one that starts with "CWE-" |
| Adapters.CweSuffixOfTag | src/main/java/com/example/capstone/parser/service/ParserService.java:291-294 | the part is the tag's own tail from its first "cwe-" in any case, upper-cased |
| Adapters.CwePartsShape | src/main/java/com/example/capstone/parser/service/ParserService.java:289-298 | every collected part starts with "CWE-", and there are no more parts than items |
| Adapters.CwePartsComplete | src/main/java/com/example/capstone/parser/service/ParserService.java:289-298 | every string tag that mentions "cwe-" contributes its part |
| Adapters.CwePartsSound | src/main/java/com/example/capstone/parser/service/ParserService.java:289-298 | every collected part is the part of some string tag that mentions "cwe-": other strings and non-string items give nothing |
| Adapters.CwePartsOne | src/main/java/com/example/capstone/parser/service/ParserService.java:289-296 | one item gives one part exactly when it is a CWE tag, and none otherwise |
| Adapters.CwePartsAppend | src/main/java/com/example/capstone/parser/service/ParserService.java:289-298 | the parts of `a + b` are the parts of `a` followed by those of `b`; with `CwePartsOne`, one part per CWE tag, in list order |
| Adapters.CweParts | src/main/java/com/example/capstone/parser/service/ParserService.java:287-298 | the list `parseCweFromTags` collects; no ensures of its own: `CwePartsOne`, `CwePartsAppend`, `CwePartsSound`, `CwePartsComplete` and `CwePartsShape` characterise it |
| Adapters.CweFromTags | src/main/java/com/example/capstone/parser/service/ParserService.java:285-304 | what `parseCweFromTags` returns; no ensures of its own: `CweFromTagsEmpty` states when it is "" and `ParseCweFromTags` is proved equal to it |
| Adapters.CwePartsEmpty | src/main/java/com/example/capstone/parser/service/ParserService.java:289-299 | nothing is collected exactly when no tag is a CWE tag |
| Adapters.CweFromTagsEmpty | src/main/java/com/example/capstone/parser/service/ParserService.java:285-304 | `parseCweFromTags` is `""` exactly for a non-list or a list without CWE tags; otherwise it starts with "CWE-" |
| Adapters.JoinHead | src/main/java/com/example/capstone/parser/service/ParserService.java:300 | a join starts with its first part |
| Adapters.ParseCweFromTags | src/main/java/com/example/capstone/parser/service/ParserService.java:285-304 | the accumulation loop returns what `CweFromTags` specifies |
| Adapters.ParseCwe | src/main/java/com/example/capstone/parser/service/ParserService.java:306-318 | the null-safe `cwe_id` of the list's first entry when that entry is an object, and `""` in every other case |
| Adapters.ParseCweReadsFirstOnly | src/main/java/com/example/capstone/parser/service/ParserService.java:309-314 | only the first entry of the list is read |
| Adapters.MaskSecret | src/main/java/com/example/capstone/parser/service/ParserService.java:223-226 | empty stays empty; a secret of at most 8 characters is kept verbatim; a longer one keeps its first 8 characters followed by "...(masked)" |
| Adapters.SecretClause | src/main/java/com/example/capstone/parser/service/ParserService.java:235-237 | the secret clause is present exactly for a non-empty secret |
| Adapters.SecretRevealsOnlyPrefix | src/main/java/com/example/capstone/parser/service/ParserService.java:223-238 | two secrets longer than 8 that share their first 8 characters give the same description |
| Adapters.SecretScenarioMask | src/main/java/com/example/capstone/parser/service/ParserService.java:224-236 | a 16-character secret shows as its first 8 characters followed by "...(masked)" |
| Adapters.BuildDoc | src/main/java/com/example/capstone/parser/service/ParserService.java:134-173 | the dispatch is total; see the note after this table |
| Adapters.CommonFields | src/main/java/com/example/capstone/parser/service/ParserService.java:135-151 | the fields `convertToFindings` sets before the switch; no ensures of its own: `BuildDoc`, `DependabotInaccurateState` and the scenarios state what it gives |
| Adapters.FillCodeScanning | src/main/java/com/example/capstone/parser/service/ParserService.java:175-189 | the record `fillCodeScanningData` leaves; no ensures of its own: `FillCodeScanningData` is proved equal to it and `CodeScanningScenario` shows a case |
| Adapters.FillDependabot | src/main/java/com/example/capstone/parser/service/ParserService.java:191-206 | the record `fillDependabotData` leaves; no ensures of its own: `FillDependabotData` is proved equal to it and `DependabotCriticalSeverity` states its severity rule |
| Adapters.FillSecretScanning | src/main/java/com/example/capstone/parser/service/ParserService.java:208-243 | the record `fillSecretScanningData` leaves; no ensures of its own: `FillSecretScanningData` is proved equal to it and `SecretRevealsOnlyPrefix` states what it reveals |
| Adapters.FillUnknown | src/main/java/com/example/capstone/parser/service/ParserService.java:163-170 | the default branch of the switch; no ensures of its own: `BuildDoc` states its severity and title for any other tool type |
| Adapters.ConvertFails | src/main/java/com/example/capstone/parser/service/ParserService.java:134-153 | the alerts `convertToFindings` throws for, a null alert or a null tool type; no ensures of its own: `ConvertToFindings` returns null exactly then |
| Adapters.FillCodeScanningData | src/main/java/com/example/capstone/parser/service/ParserService.java:175-189 | the setter sequence leaves exactly the record `FillCodeScanning` specifies (severity with fallback, title, description, path, CWEs, empty CVE and CVSS); the additional data is untouched |
| Adapters.FillDependabotData | src/main/java/com/example/capstone/parser/service/ParserService.java:191-206 | the setter sequence leaves the record `FillDependabot` specifies: advisory fields, and the manifest path or else the package name |
| Adapters.FillSecretScanningData | src/main/java/com/example/capstone/parser/service/ParserService.java:208-243 | the setter sequence leaves the record `FillSecretScanning` specifies: CRITICAL exactly when publicly leaked, masked description, locations URL |
| Adapters.SetSecretTail | src/main/java/com/example/capstone/parser/service/ParserService.java:239-242 | empty CVE, CWE and CVSS and the given location, with every other field unchanged |
| Adapters.ComposeSecretDescription | src/main/java/com/example/capstone/parser/service/ParserService.java:223-238 | the StringBuilder yields `SecretDescription`, masking included |
| Adapters.AppendIfPresent | src/main/java/com/example/capstone/parser/service/ParserService.java:232-237 | a clause is appended exactly when its value is non-empty |
| Adapters.ConvertToFindings | src/main/java/com/example/capstone/parser/service/ParserService.java:134-173 | see the note after this table |
| Adapters.CodeScanningScenario | src/main/java/com/example/capstone/parser/service/ParserService.java:134-189 | open code-scanning alert #42 "SQL Injection" rated "high" gives alert number "42", that title, HIGH and OPEN |
| Adapters.CodeScanningScenarioReads | src/main/java/com/example/capstone/parser/service/ParserService.java:140-181 | what the builder reads from that alert: "42", "open", "high" and the title |
| Adapters.DependabotInaccurateState | src/main/java/com/example/capstone/parser/service/ParserService.java:148-151 | a Dependabot alert dismissed as "inaccurate" gets the state FALSE_POSITIVE |
| Adapters.DependabotCriticalSeverity | src/main/java/com/example/capstone/parser/service/ParserService.java:192-193 | advisory severity "critical" gives CRITICAL |
| Adapters.DependabotDispatch | src/main/java/com/example/capstone/parser/service/ParserService.java:153-159 | a Dependabot record is the common fields overlaid by `fillDependabotData` |
| Adapters.DependabotScenario | src/main/java/com/example/capstone/parser/service/ParserService.java:134-206 | a critical Dependabot alert dismissed as "inaccurate" becomes a CRITICAL false positive |
| Adapters.SecretScenario | src/main/java/com/example/capstone/parser/service/ParserService.java:208-238 | a publicly leaked 16-character secret gives CRITICAL, and its description ends with the masked clause |
| Paths.CollapseSeparators | src/main/java/com/example/capstone/parser/service/ParserService.java:250 | collapsing leaves no doubled separator, is no longer than the input, is empty only for an empty input, and keeps its first and last character and whether it holds a separator at all |
| Paths.CollapseKeepsNames | src/main/java/com/example/capstone/parser/service/ParserService.java:250 | collapsing keeps the names of the path (the non-empty pieces between separators), in order; with the clauses of `CollapseSeparators` these fix the result |
| Paths.CollapseKeepsSingle | src/main/java/com/example/capstone/parser/service/ParserService.java:250 | a path without doubled separators is kept as it is |
| Paths.NormalizePath | src/main/java/com/example/capstone/parser/service/ParserService.java:250 | `new File(path)` gives a normal path with the same names and the same first character, empty only for an empty input |
| Paths.NormalizeKeepsNormal | src/main/java/com/example/capstone/parser/service/ParserService.java:250 | a normal path is kept as it is |
| Paths.NormalizeIdempotent | src/main/java/com/example/capstone/parser/service/ParserService.java:250 | normalising twice is normalising once |
| Paths.TrailingSeparatorDropped | src/main/java/com/example/capstone/parser/service/ParserService.java:250 | dropping the trailing separator of a collapsed path leaves a normal path with the same names |
| Paths.NamesDropTrailing | src/main/java/com/example/capstone/parser/service/ParserService.java:250 | a trailing separator adds no name |
| Paths.NamesSeparatorCons | src/main/java/com/example/capstone/parser/service/ParserService.java:250 | a leading separator adds no name |
| Paths.NamesCharCons | src/main/java/com/example/capstone/parser/service/ParserService.java:250 | texts with the same names that start alike keep the same names when the same character is put in front |
| Paths.ParentOf | src/main/java/com/example/capstone/parser/service/ParserService.java:251 | `getParent` is null exactly when there is no separator or the path is the root; otherwise it is a strict prefix cut at the last separator, or the root |
| Paths.StripRunPrefix | src/main/java/com/example/capstone/parser/service/ParserService.java:254-257 | the folder name after its first '_', or the whole name when it has none |
| Paths.OwnerRepoFromSegment | src/main/java/com/example/capstone/parser/service/ParserService.java:254-264 | without '-', the pair ("unknownOwner", "unknownRepo"); otherwise owner + "-" + repo rebuilds the name, and repo holds no '-' |
| Paths.ParseOwnerRepoFromPath | src/main/java/com/example/capstone/parser/service/ParserService.java:249-265 | `parseOwnerRepoFromPath`, with `None` for its exceptions; no ensures of its own: `OwnerRepoSucceedsIff` states when it returns and `LayoutOwnerRepo` and `SegmentOwnerRepo` what it returns |
| Paths.SplitAllAtLeastTwo | src/main/java/com/example/capstone/parser/service/ParserService.java:252-253 | a text holding the separator splits into at least two pieces |
| Paths.SplitAllLastNonEmpty | src/main/java/com/example/capstone/parser/service/ParserService.java:252 | a text that does not end in the separator has a non-empty last piece |
| Paths.OwnerRepoSucceedsIff | src/main/java/com/example/capstone/parser/service/ParserService.java:249-253 | `parseOwnerRepoFromPath` returns exactly when the normal path has a separator before its last one; every shallower path throws |
| Paths.RootSplitsEmpty | src/main/java/com/example/capstone/parser/service/ParserService.java:252 | "/" splits into no names, so a file directly under the root throws |
| Paths.ParentSplitIff | src/main/java/com/example/capstone/parser/service/ParserService.java:252-253 | a folder path not ending in '/' splits into two names or more exactly when it holds a separator |
| Paths.SplitAllConcat | src/main/java/com/example/capstone/parser/service/ParserService.java:252 | splitting `a + sep + b` splits `a` and `b` separately |
| Paths.LayoutIsNormal | src/main/java/com/example/capstone/parser/service/ParserService.java:250 | a base folder followed by folder and file names is already normal |
| Paths.ParentOfName | src/main/java/com/example/capstone/parser/service/ParserService.java:251 | the parent of a file in a folder is that folder |
| Paths.SplitEndsWithNames | src/main/java/com/example/capstone/parser/service/ParserService.java:252-253 | a folder path ending in two names splits with those names last |
| Paths.LayoutOwnerRepo | src/main/java/com/example/capstone/parser/service/ParserService.java:249-265 | for `<base>/<run>_<owner>-<repo>/<tool>/<file>`, owner and repository come from the repository folder |
| Paths.StripRunAt | src/main/java/com/example/capstone/parser/service/ParserService.java:254-257 | the run prefix ends at the first '_' |
| Paths.LastDashAt | src/main/java/com/example/capstone/parser/service/ParserService.java:258 | the repository starts after the last '-' |
| Paths.SegmentOwnerRepo | src/main/java/com/example/capstone/parser/service/ParserService.java:254-264 | "<run>_<owner>-<repo>" names exactly that owner and repository; the owner may hold '_' and '-' |
| Paths.DeduceToolType | src/main/java/com/example/capstone/parser/service/ParserService.java:267-273 | each tool type is returned exactly when its keyword is the first, in the order tested, that the lower-cased path contains; otherwise UNKNOWN_TOOL |
| Paths.DeduceIgnoresCase | src/main/java/com/example/capstone/parser/service/ParserService.java:268 | the deduction ignores letter case |
| Store.Matching | src/main/java/com/example/capstone/parser/service/ParserService.java:90 | the fetch holds only records of the requested tool type |
| Store.MatchingIff | src/main/java/com/example/capstone/parser/service/ParserService.java:90 | a record is fetched exactly when it is stored for that tenant with that tool type |
| Store.MatchingAppend | src/main/java/com/example/capstone/parser/service/ParserService.java:90 | a new entry of the tenant and tool type appears last in the fetch |
| Store.KeyIndex | src/main/java/com/example/capstone/parser/service/ParserService.java:103 | the first entry with that tenant and id, or -1 exactly when there is none |
| Store.Upsert | src/main/java/com/example/capstone/parser/service/ParserService.java:103-111 | a write replaces the entry with the same tenant and id in place, leaving the others, or appends when there is none |
| Store.UpsertKeepsIdsDistinct | src/main/java/com/example/capstone/parser/service/ParserService.java:103-111 | writes keep each tenant's ids distinct |
| Store.DocumentStore.constructor | src/main/java/com/example/capstone/parser/service/ParserService.java:18 | the store starts with the given records and an empty write log |
| Store.DocumentStore.FindAllByTenantAndToolType | src/main/java/com/example/capstone/parser/service/ParserService.java:90 | returns the tenant's records of that tool type in stored order, exactly those, and writes nothing |
| Store.DocumentStore.IndexFindings | src/main/java/com/example/capstone/parser/service/ParserService.java:111 | upserts the record and logs one index call |
| Store.DocumentStore.UpdateFindings | src/main/java/com/example/capstone/parser/service/ParserService.java:103 | upserts the record and logs one update call |
| Reconciler.FirstIdentityMatchUnique | src/main/java/com/example/capstone/parser/service/ParserService.java:92-107 | there is at most one first identity match |
| Reconciler.FirstMatch | src/main/java/com/example/capstone/parser/service/ParserService.java:92-108 | the scan result is -1 or a position among the fetched records; `FirstMatchSpec` states which |
| Reconciler.FirstMatchSpec | src/main/java/com/example/capstone/parser/service/ParserService.java:92-108 | -1 exactly when no fetched record has the key; otherwise that record has it and none before it does |
| Reconciler.NoMatchExtends | src/main/java/com/example/capstone/parser/service/ParserService.java:92-94 | one more non-matching record extends the scanned prefix |
| Reconciler.Reconcile | src/main/java/com/example/capstone/parser/service/ParserService.java:86-113 | the decision of `deduplicateAndStore`; no ensures of its own: `ReconcileSpec` states it in both directions |
| Reconciler.ReconcileSpec | src/main/java/com/example/capstone/parser/service/ParserService.java:86-113 | see the note after this table |
| Reconciler.Apply | src/main/java/com/example/capstone/parser/service/ParserService.java:98-111 | a skip writes nothing; an update logs one update call and an insert one index call, and the written record is then stored |
| Reconciler.Step | src/main/java/com/example/capstone/parser/service/ParserService.java:86-113 | one `deduplicateAndStore` on the store; no ensures of its own: `DeduplicateAndStore` is proved to leave it, `StepWrites` bounds its writes, `InsertThenSkip` and `InsertThenUpdate` chain two of them |
| Reconciler.After | src/main/java/com/example/capstone/parser/service/ParserService.java:102-110 | the new record as the caller holds it afterwards; no ensures of its own: `OutcomeKeepsKeys` states that neither key changes |
| Reconciler.OutcomeKeepsKeys | src/main/java/com/example/capstone/parser/service/ParserService.java:102-110 | only the id of the new record changes, so neither of its keys does |
| Reconciler.InsertAppends | src/main/java/com/example/capstone/parser/service/ParserService.java:110-111 | an insert under a fresh id lands at the end of the tenant's fetch |
| Reconciler.InsertedIsFirstMatch | src/main/java/com/example/capstone/parser/service/ParserService.java:90-111 | after an insert, the first fetched record with that identity key is the inserted record |
| Reconciler.InsertThenSkip | src/main/java/com/example/capstone/parser/service/ParserService.java:92-112 | reconciling the same finding twice gives an insert, then a skip |
| Reconciler.InsertThenUpdate | src/main/java/com/example/capstone/parser/service/ParserService.java:92-112 | an inserted finding seen again with another severity, state or `updatedAt` is updated under its original id |
| Reconciler.UpdateKeepsCount | src/main/java/com/example/capstone/parser/service/ParserService.java:101-105 | an update overwrites the matched record's entry, so the store does not grow |
| Service.AckSink.constructor | src/main/java/com/example/capstone/parser/producer/AcknowledgementProducer.java:20-23 | nothing has been sent yet |
| Service.AckSink.SendParseAcknowledgement | src/main/java/com/example/capstone/parser/producer/AcknowledgementProducer.java:31-42 | exactly one acknowledgement with the event id and flag is appended to what was sent |
| Service.ReadAlerts | src/main/java/com/example/capstone/parser/service/ParserService.java:40-43 | the file reads exactly when it is a JSON array of objects or nulls, and then yields its items |
| Service.Prepared | src/main/java/com/example/capstone/parser/service/ParserService.java:57-66 | the converted record keeps its id and tool type; its additional data holds exactly tenantId, owner and repo, with those values |
| Service.FirstFailure | src/main/java/com/example/capstone/parser/service/ParserService.java:56-57 | the position of the first alert whose conversion throws, with none before it, or the number of alerts |
| Service.PreparedAll | src/main/java/com/example/capstone/parser/service/ParserService.java:56-66 | record k is alert k converted under `uuid(2k)`, with the batch's additional data |
| Service.BatchDocs | src/main/java/com/example/capstone/parser/service/ParserService.java:56-66 | one record per alert before the first failure; `BatchDocsAt` states which record |
| Service.BatchDocsAt | src/main/java/com/example/capstone/parser/service/ParserService.java:56-66 | record k of the batch is alert k converted under `uuid(2k)`, with the batch's tenant, owner and repository |
| Service.StoreFirst | src/main/java/com/example/capstone/parser/service/ParserService.java:56-70 | the store after the first records are reconciled in order; no ensures of its own: `StoreFirstNext` gives its step and `IndexAlerts` is proved to leave it |
| Service.Batch | src/main/java/com/example/capstone/parser/service/ParserService.java:36-84 | `parseFileAndIndex` from the store's side; no ensures of its own: `BatchSucceedsIff`, `ShallowPathWritesNothing` and `FailureKeepsEarlierWrites` state it, and `ParseFileAndIndex` is proved to leave it |
| Service.BatchSucceedsIff | src/main/java/com/example/capstone/parser/service/ParserService.java:36-83 | `success` is true exactly when the file reads, the path is two folders deep, and every alert converts |
| Service.ShallowPathWritesNothing | src/main/java/com/example/capstone/parser/service/ParserService.java:46-48 | a path too shallow for owner and repository fails the batch before any write |
| Service.StepWrites | src/main/java/com/example/capstone/parser/service/ParserService.java:69 | one reconciliation only appends to the write log, at most once, for its tenant and with the record's additional data |
| Service.FailureKeepsEarlierWrites | src/main/java/com/example/capstone/parser/service/ParserService.java:56-73 | no rollback: a failed batch leaves the store as the same batch cut before the failing alert, which succeeds |
| Service.ReadAlertsPrefix | src/main/java/com/example/capstone/parser/service/ParserService.java:40-43 | a prefix of a readable alert list reads as itself |
| Service.BatchDocsCut | src/main/java/com/example/capstone/parser/service/ParserService.java:56-70 | cutting the alerts at the first failure does not change the records the loop builds |
| Service.FirstFailureIff | src/main/java/com/example/capstone/parser/service/ParserService.java:56-57 | the first failure is past the end exactly when the tool type is set and every alert is an object |
| Service.FirstFailureAll | src/main/java/com/example/capstone/parser/service/ParserService.java:56-57 | with no failing alert, the first failure is past the end |
| Service.BatchNext | src/main/java/com/example/capstone/parser/service/ParserService.java:56-70 | the loop's next converted alert is the batch's next record, reconciled under `uuid(2i + 1)` |
| Service.StoreFirstNext | src/main/java/com/example/capstone/parser/service/ParserService.java:56-70 | one more record is one more reconciliation step |
| Service.ScanForIdentity | src/main/java/com/example/capstone/parser/service/ParserService.java:92-94 | the scan loop finds exactly `FirstMatch` |
| Service.ParserService.constructor | src/main/java/com/example/capstone/parser/service/ParserService.java:22-26 | the service holds the given store and acknowledgement channel |
| Service.ParserService.DeduplicateAndStore | src/main/java/com/example/capstone/parser/service/ParserService.java:86-113 | the store afterwards is `Step` of the old store; the record's id is replaced as `Reconcile` decides and nothing else about it changes |
| Service.ParserService.IndexAlert | src/main/java/com/example/capstone/parser/service/ParserService.java:57-69 | one loop turn converts exactly when the conversion does not throw; then it reconciles the prepared record, and otherwise it writes nothing |
| Service.ParserService.IndexAt | src/main/java/com/example/capstone/parser/service/ParserService.java:56-69 | one turn of the loop at alert i: it converts exactly when i is before the first failure, and then the store holds the first i + 1 records reconciled; otherwise nothing is written |
| Service.ParserService.IndexAlerts | src/main/java/com/example/capstone/parser/service/ParserService.java:56-71 | the loop leaves the store after the records before the first failure, in order; it completes exactly when no alert failed |
| Service.ParserService.ParseFileAndIndex | src/main/java/com/example/capstone/parser/service/ParserService.java:36-84 | the store ends as `Batch` says, and exactly one acknowledgement is sent for the event with the batch's outcome, failure included |

Four contracts are too long for the table:

- `AlertStates.FromRawForTool`:
  - `null` and `""` give OPEN.
  - The fixed and confirm words give FIXED and CONFIRM.
  - The result is FALSE_POSITIVE or SUPPRESSED exactly for "dismissed".
  - It is FALSE_POSITIVE exactly when three things hold: the state is "dismissed", the upper-cased tool is one of the three known tools, and the lower-cased reason mentions "false positive" or "inaccurate".
  - Every other word gives OPEN.
- `Adapters.BuildDoc`:
  - The dispatch is total.
  - The record has the given id and tool type, and it always has a severity, a state, a title and an alert number.
  - An unknown tool type gives MEDIUM and "Unknown Alert".
- `Adapters.ConvertToFindings`:
  - It returns `null` exactly when the source throws: a null alert or a null tool type.
  - Otherwise the new record holds `BuildDoc` of the tool type, the alert and the id.
- `Reconciler.ReconcileSpec`:
  - It inserts under the fresh id exactly when no fetched record has the identity key.
  - Otherwise the first match decides: a skip exactly when its mutable-state key is equal, and an update under that record's id when it is not.

## Left out

- Kafka. The consumer that triggers a batch is not part of this model. The acknowledgement producer becomes `AckSink`, the record of what was sent.
- The search-engine client. `ElasticsearchClientService.java` is not part of this model. The store is an in-memory class: records are fetched in stored order and written by upsert on tenant and id. The client's network behaviour and its swallowed I/O errors are out, so store calls never throw here.
- File reading. Jackson's parse is an input: `None` stands for an unreadable or malformed file. Jackson's coercions of numbers are out, and a floating-point value is an opaque string.
- `UUID.randomUUID()`. It becomes the parameter `uuid`: alert k draws `uuid(2k)` when it is converted and `uuid(2k + 1)` when it is inserted. Freshness on insert is a precondition (`FreshFor`) where a lemma needs it.
- `Thread.sleep(10000)`, `printStackTrace` and all console logging. They have no effect on results.
- Unicode and locales. Case mapping covers ASCII only; other characters are left unchanged.
- Hash collisions. `String.hashCode` is written out exactly in 32-bit arithmetic, and no lemma claims collision freedom. The injectivity lemmas are about the composite strings, before hashing.
- Duplicate JSON keys. An object keeps every binding in document order. `Map.get` answers the last binding of a key, as Jackson's map does after a repeated key overwrites the earlier one. Where Jackson keeps one entry per key, `Json.Render` prints every binding.
- Windows paths. The separator is fixed to '/' and `getParent` uses the Unix prefix rule. The backslash separator, drive letters and UNC prefixes of `File` on Windows are out.
- Null arguments. A null `tenantId`, `filePath` or `eventId` is out. A null tool type and a null alert are modelled.
- Concurrency. Batches are taken one at a time.
- Getters. Each getter reads one component of `Findings.Value()`, so they are not separate members.
- `convertToFindings` on a non-object alert. It returns `null` where the source throws.
- The `parseFileAndIndex` loop. It is split into `IndexAlert`, the work on one alert, `IndexAt`, that work as turn i of the batch, and `IndexAlerts`, the loop.
- A mutated shared `additionalData` map. No adapter sets one, so the loop always starts from a fresh map.
- Service.Prepared: the ensures states the record's id, tool type and additional data, not that every other field equals `BuildDoc`'s. That fact follows from the body and is used by `IndexAlert`.

# DLP-CRAM module 3: translation cache and defect dashboard, in Dafny

This project models module 3 of the DLP compliance-report generator. The module has three parts:

- **The disk-backed translation cache** (`ai_translate_cached.py`). A defects payload (JSON) or a report text is translated into formal Malay or English by an AI provider. A cache key is built from the language, the role and an MD5 digest of the payload. The key names a file under `cache/defects/` or `cache/reports/`. If that file exists, its content is returned. Otherwise the provider is asked once, and its answer is written to the file and returned.
- **The stand-alone Flask app's mock logic** (`app.py`): which defects a role sees, the dashboard counters, the template and report type chosen by role, and the mock AI narrative.
- **The blueprint's handlers** (`routes.py`): the in-place status and remark updates on the shared defect list, and the labels the dashboard and the PDF export pick by role.

Modules:

- `Wrappers`: `Option` and `Result`.
- `Text`: UTF-8 encoding, Python's `str.strip()`, the newline translation of a file opened in text mode, and `str(int)`.
- `Json`: JSON values with Python dict semantics. It covers the key order imposed by `sort_keys=True`, equality up to the order of object members (objects compare as dicts), the serialisation `json.dumps(..., sort_keys=True, ensure_ascii=False)`, and the decoding of its string literals.
- `TranslationCache`: keys, paths and provider requests. Each entry point is a specification function from the old state to the result and the new state. The `Cache` class has fields for the files, the directories, the provider-request log and the write log, and its methods are proved equal to those functions.
- `DefectRecords`: the defect record.
- `App` and `Routes`: the other two source files. `Routes.UpdateStatus` and `Routes.AddRemark` walk an `array` in place and stop at the first match.

The surroundings are parameters:

- MD5 is a function from bytes into 32-character lowercase hex strings.
- `json.loads`/`json.load` and `json.dump(..., indent=2)` form a parse/render pair. Where a property needs the pair to behave like Python's, two laws are assumed explicitly. `LoadsWellFormed`: parsing only ever yields dict trees, so no object repeats a key. `CodecLaw`: reading back what was dumped gives the dict tree that was dumped.
- The AI provider is a function from the request (model, temperature, target register, payload) to a reply. No reply means the call raised.
- The clock is not modelled.
- The defect list of `routes.py` comes from `dummy_data`, which is not part of this model. The handlers take the list as a parameter.

## Model

| member | source | states |
|---|---|---|
| Text.Utf8 | app/module3/ai_translate_cached.py:19 | `encode("utf-8")` gives one to four bytes per character; all-ASCII text gives one byte per character |
| Text.Utf8Decodes | app/module3/ai_translate_cached.py:22-23 | decoding the UTF-8 bytes that `_hash_text` digests gives the text back, so the digest's input determines the text |
| Text.Strip | app/module3/ai_translate_cached.py:125 | `strip()` returns the slice of the input that starts at the first non-whitespace character; everything cut on either side is whitespace; the result neither starts nor ends with whitespace; it is empty iff the input is all whitespace (Python's `isspace` set) |
| Text.StripIdempotent | app/module3/ai_translate_cached.py:125 | stripping a stripped reply changes nothing |
| Text.TranslateNewlines | app/module3/ai_translate_cached.py:96-98 | what a text-mode read returns holds no carriage return; text without one reads back unchanged; it is never longer than the stored text |
| Text.IntToString | app/module3/ai_translate_cached.py:18 | the decimal rendering of a JSON integer starts with '-' iff the integer is negative |
| Json.SortByKeySorted | app/module3/ai_translate_cached.py:18 | `sort_keys=True` orders the members of a dict with distinct keys strictly by Python's string order |
| Json.SortedUnique | app/module3/ai_translate_cached.py:18 | two key-sorted member lists with the same members are identical, so the sorted order does not depend on the insertion order |
| Json.EqualSameCanon | app/module3/ai_translate_cached.py:18 | values equal up to the order of object members, at any depth, have the same key-sorted form (booleans and integers are kept apart) |
| Json.CanonEqual | app/module3/ai_translate_cached.py:18 | the key-sorted form of a dict tree is equal, up to the order of object members, to the value it came from |
| Json.DumpsSortedIgnoresKeyOrder | app/module3/ai_translate_cached.py:17-19 | payloads equal up to the order of object members serialise to the same text under `sort_keys=True` |
| Json.CanonSorted | app/module3/ai_translate_cached.py:18 | in the form `sort_keys=True` serialises, every object of a dict tree lists its keys in strictly increasing order, at every depth |
| Json.CanonIdempotent | app/module3/ai_translate_cached.py:18 | sorting the keys of an already sorted dict tree changes nothing |
| Json.EscapeUnescapes | app/module3/ai_translate_cached.py:18 | every string literal `json.dumps(..., ensure_ascii=False)` writes (quote, backslash, the named escapes, `\u00XX` for other control characters) decodes to the string it came from |
| Json.FalsyIffEmptyText | app/module3/ai_translate_cached.py:36 | `not v` holds exactly when the JSON text of `v` is `null`, `false`, `0`, `""`, `[]` or `{}` |
| TranslationCache.Key | app/module3/ai_translate_cached.py:39 | the key is the language, '_', the role, '_', then the 32-character digest, at fixed positions |
| TranslationCache.HashJsonIgnoresKeyOrder | app/module3/ai_translate_cached.py:17-19 | `_hash_json` gives payloads equal up to the order of object members the same digest |
| TranslationCache.KeyParses | app/module3/ai_translate_cached.py:39 | a key built from a two-letter language splits back into its language, role and digest |
| TranslationCache.ParsedKeyRebuilds | app/module3/ai_translate_cached.py:92 | a key that splits into (language, role, digest) is exactly the key those three build |
| TranslationCache.KeyInjective | app/module3/ai_translate_cached.py:39 | distinct (language, role, digest) triples with two-letter languages give distinct keys, even for roles containing '_' |
| TranslationCache.DefectsKeyIgnoresKeyOrder | app/module3/ai_translate_cached.py:39 | payloads equal up to the order of object members get the same cache key |
| TranslationCache.CategoryDir | app/module3/ai_translate_cached.py:27 | the folder is `cache/` followed by the category's name, 13 characters in all |
| TranslationCache.CachePath | app/module3/ai_translate_cached.py:26-29 | the path is the category folder, '/', the key, then `.cache` |
| TranslationCache.CachePathInjective | app/module3/ai_translate_cached.py:26-29 | different (category, key) pairs name different files: an entry of one category never answers a lookup in the other |
| TranslationCache.DefectsRequest | app/module3/ai_translate_cached.py:68-75 | the defects request uses `llama-3.3-70b-versatile` at temperature 0 and carries the payload |
| TranslationCache.ReportRequest | app/module3/ai_translate_cached.py:116-123 | the report request uses `llama-3.3-70b-versatile` at temperature 0 and carries the text |
| TranslationCache.WithDir | app/module3/ai_translate_cached.py:13-14 | creating a folder adds it to the directories and changes nothing else |
| TranslationCache.DefectsOutcome | app/module3/ai_translate_cached.py:35-82 | a defects call either leaves the files as they were or, when it succeeds, sets only the payload's own entry to the dumped result; the only request it can log is this payload's request; the only write it can log is to this payload's path, and only on success; the only folder it can create is `cache/defects` |
| TranslationCache.ReportOutcome | app/module3/ai_translate_cached.py:88-130 | the same for a report call: at most its own entry is set, to the returned text, and at most its own request, its own write and `cache/reports` are added |
| TranslationCache.EqualFalsy | app/module3/ai_translate_cached.py:36 | payloads equal up to the order of object members are falsy together, so both take the same branch at line 36 |
| TranslationCache.DefectsPassThroughUnchanged | app/module3/ai_translate_cached.py:36-37 | a falsy payload or a language other than ms/en is returned as given; nothing is created, read, written or asked |
| TranslationCache.ReportPassThroughUnchanged | app/module3/ai_translate_cached.py:89-90 | an empty text or a language other than ms/en is returned as given; nothing is created, read, written or asked |
| TranslationCache.DefectsHit | app/module3/ai_translate_cached.py:39-45 | when the entry exists, the parsed file content is returned; the only change is the category folder; no provider call and no write |
| TranslationCache.ReportHit | app/module3/ai_translate_cached.py:92-98 | when the entry exists, the file read back in text mode is returned; no provider call and no write |
| TranslationCache.DefectsMiss | app/module3/ai_translate_cached.py:47-82 | on a miss exactly one request is logged; the call succeeds iff the provider replies with JSON that parses; only then is exactly one file written, at the derived path, holding the returned value; a failed call or an unparsable reply leaves the files and the write log as they were and reports which of the two happened |
| TranslationCache.ReportMiss | app/module3/ai_translate_cached.py:100-130 | on a miss exactly one request is logged; when the provider replies, the stripped reply is written once at the derived path and returned; when it fails, nothing is written |
| TranslationCache.DefectsAtMostOnce | app/module3/ai_translate_cached.py:35-82 | any defects call makes at most one provider request and at most as many writes as requests; it writes only when it succeeds; it keeps the earlier write log and never drops or changes an existing file |
| TranslationCache.ReportAtMostOnce | app/module3/ai_translate_cached.py:88-130 | the same bounds for report calls |
| TranslationCache.DefectsStored | app/module3/ai_translate_cached.py:77-80 | given a codec that parses only dict trees and reads back what it dumped, after a successful call the entry and its folder exist and the entry reads back as the returned value |
| TranslationCache.DefectsRepeat | app/module3/ai_translate_cached.py:43-45 | given the same codec laws, after a successful call an identical call returns the same value from the cache, whatever the provider would now answer, and changes nothing |
| TranslationCache.DefectsReorderedHits | app/module3/ai_translate_cached.py:17-19 | given the same codec laws, after a successful call a payload equal to the first up to member order is answered from the same entry with the same value and changes nothing |
| TranslationCache.ReportRepeat | app/module3/ai_translate_cached.py:96-98 | after a successful report call, the repeated call changes nothing; if the first call was a miss, it returns the stored text as read back, and that equals the first result iff the read is exact or the text has no carriage return; if the first call was a hit, it returns the same |
| TranslationCache.ExactReportRepeat | app/module3/ai_translate_cached.py:125-130 | with the entry read back exactly, the repeated report call returns what the first returned and changes nothing |
| TranslationCache.NewlineRoundTripFails | app/module3/ai_translate_cached.py:96-98 | with the source's text-mode read, a reply "a\rb" is returned as "a\rb" by the miss and as "a\nb" by the next hit |
| TranslationCache.ReportLeavesDefectsAlone | app/module3/ai_translate_cached.py:93 | a report call neither adds, removes nor changes any file under the defects folder |
| TranslationCache.DefectsLeaveReportsAlone | app/module3/ai_translate_cached.py:40 | a defects call neither adds, removes nor changes any file under the reports folder |
| TranslationCache.Cache.EnsureDir | app/module3/ai_translate_cached.py:13-14 | the folder is added to the directories and nothing else changes |
| TranslationCache.Cache.CachePathFor | app/module3/ai_translate_cached.py:26-29 | returns the entry's path and creates only the category folder |
| TranslationCache.Cache.WriteFile | app/module3/ai_translate_cached.py:79-80 | one file is set to the content and the write is logged; the directories and requests are unchanged |
| TranslationCache.Cache.Ask | app/module3/ai_translate_cached.py:68-75 | one request is logged and the provider's reply is returned; the files are unchanged |
| TranslationCache.Cache.TranslateDefectsCached | app/module3/ai_translate_cached.py:35-82 | the result and the whole new state are those of the defects specification function |
| TranslationCache.Cache.TranslateReportCached | app/module3/ai_translate_cached.py:88-130 | the result and the whole new state are those of the report specification function |
| App.OwnedBy | app/module3/app.py:28 | the comprehension keeps exactly the records of the owner and is never longer than the data |
| App.OwnedPositions | app/module3/app.py:28 | the positions of the owner's records, strictly increasing, holding every such position and no other |
| App.OwnedByIsOrderedSelection | app/module3/app.py:26-28 | the Homeowner's list is the data taken at exactly those positions: each owned record once, in its original order |
| App.DefectsForRole | app/module3/app.py:24-29 | the Homeowner sees the records of user 1; every other role sees the whole list |
| App.InStatesCounts | app/module3/app.py:46-47 | the status selection holds each record whose status is in the given list as often as the role's list does, and no other record |
| App.DisjointSelections | app/module3/app.py:46-47 | two selections by disjoint status lists together hold at most every record, and exactly every record iff each status is in one of the lists |
| App.DashboardStats | app/module3/app.py:44-48 | `total` is the length of the role's list; `pending` is the size of the "Pending"/"In Progress" selection and `completed` of the "Completed" selection; pending ("Pending" or "In Progress") plus completed ("Completed") never exceeds it, and equals it iff every record is in one of the three states |
| App.DashboardTemplate | app/module3/app.py:51-56 | Homeowner, Developer and every other role each get their own template |
| App.ReportType | app/module3/app.py:66-72 | Homeowner gets "Defect Claim Report", Developer "Repair Compliance Report", every other role "Full Compliance Report"; "Generic Report" is never the result |
| App.MockNarrative | app/module3/app.py:31-33 | the narrative is a fixed opening, the description verbatim between single quotes, then a fixed verdict |
| Routes.FirstWithId | app/module3/routes.py:188-189 | the first position whose record has the id, or none when no record has it |
| Routes.WithStatusChangesOnlyFirstMatch | app/module3/routes.py:188-191 | the status update keeps the length and order; it changes only the status field of at most one record, the first one with the id, which gets the new status; with no match the list is unchanged |
| Routes.WithRemarkChangesOnlyFirstMatch | app/module3/routes.py:206-209 | the remark update changes only the remark of the first record with the id and keeps its status and every other record |
| Routes.UpdateStatus | app/module3/routes.py:180-196 | the array afterwards is the status update of the array before; the reply is "success" with "Defect status updated", match or no match |
| Routes.AddRemark | app/module3/routes.py:199-211 | the array afterwards is the remark update of the array before; the reply is a bare "success" |
| Routes.DashboardTemplate | app/module3/routes.py:35-40 | each template is chosen iff its role, with the legal one for every role other than Homeowner and Developer |
| Routes.PdfHeading | app/module3/routes.py:68-76 | Legal gets "DLP Full Compliance Report"/"Legal Officer", Developer "DLP Repair Compliance Report"/"Developer", every other role "DLP Defect Claim Report"/"Homeowner" |
| Routes.ExportFilename | app/module3/routes.py:163-167 | `dlp_full_compliance_report.pdf` iff the role is Legal, else `dlp_report.pdf` |
| Routes.RemarkLine | app/module3/routes.py:130-131 | a remark line is drawn iff the role is Homeowner and the record's remark is present and non-empty, and it reads "Remark: " and the remark |
| Routes.LabelsAgreeOnKnownRoles | app/module3/routes.py:68-76 | for Homeowner, Developer and Legal, the PDF title is "DLP " plus the app's report type, and both dashboards pick the same template |
| Routes.LabelsDisagreeOnUnknownRole | app/module3/routes.py:74-76 | for any other role, the app reports "Full Compliance Report" on the legal dashboard, while the PDF export treats the role as the Homeowner |

## Left out

- Flask plumbing is not modelled: `request` parsing (including `int(data.get("id"))`, where the id arrives already an integer), `render_template`, `send_file`, `jsonify` and `app.run`.
- The app.py `add_remark` (app.py:91-94) is not modelled, because it only returns a constant.
- The reportlab drawing in both `export_pdf` functions is not modelled: y-cursor pagination, fonts, images, and the A4 floating-point geometry. Only the role-dependent labels, the file name and the remark condition are.
- `datetime.now()` timestamps and the hard-coded signature strings are not modelled: they are non-deterministic or constant.
- The prompt wording is not modelled. A request records only the model, the temperature, the target register and the payload.
- `get_ai_client` failing is not a failure of its own: it falls together with a failing completion call as `ProviderFailure`.
- MD5 and the `json` codec are parameters, not definitions. Only `json.dumps(..., sort_keys=True, ensure_ascii=False)`, which feeds the digest, is defined.
- TranslationCache.DefectsRepeat, TranslationCache.DefectsReorderedHits and TranslationCache.DefectsStored assume the two codec laws `LoadsWellFormed` and `CodecLaw`. The model does not prove them, because `json.loads` and `json.dump(indent=2)` are not modelled.
- Python's `True == 1` is not modelled: `Json.Equal` keeps booleans and integers apart. This matches the digest, because `[True]` and `[1]` serialise differently and get different keys.
- JSON numbers are integers only; floats are left out.
- The content of a file is the string written. This matches POSIX, where text-mode writes do not translate '\n'. On Windows a written "\r\n" is stored as "\r\r\n" and reads back as "\n\n"; that is not modelled.
- TranslationCache.WithDir records only the folder passed to `os.makedirs`, not the parent `cache` folder it also creates. No property depends on the parent.
- The default arguments `language="ms"` and `role="Homeowner"` of both entry points are not modelled; every call passes both.
- Strings are sequences of Unicode scalar values. A Python `str` holding a lone surrogate, for example from a reply containing "\ud800", is not modelled. On such a string `encode("utf-8")`, `json.dump` and `f.write` raise, after `open(..., "w")` has already created an empty or truncated entry.
- The filesystem is a flat map from path strings to text. `os.path.join` is string concatenation. A role holding '/' or '..' is not resolved to another folder.
- Storage errors (full disk, permissions) are not modelled.
- Atomicity of writes, and the race between the existence check and the read under concurrent callers, are not modelled.
- Aliasing is not modelled. In the source, every role other than Homeowner receives `all_defects_data` itself, and the handlers mutate dicts shared with other callers. The model passes sequences and arrays by value.
- `dummy_data.get_defects_for_role` and `calculate_stats` are not part of this model. The routes' handlers take the defect list as an array parameter.
- Routes.RemarkLine: a remark is a string or absent. Python's truthiness test on other kinds of values is not modelled.
- TranslationCache.KeyInjective: proved for two-letter languages only. Those are the only ones that reach key derivation, because anything other than ms/en passes through first.

## Findings

| source | as written | input that shows it | evidently intended | confidence | as-written member | corrected member |
|---|---|---|---|---|---|---|
| app/module3/ai_translate_cached.py:96-98 | The report cache is read with `open(path, "r")`, which translates "\r\n" and "\r" to "\n", while the stored text (line 128) is the raw stripped reply | A provider reply "a\rb" for text "Laporan", language ms, role Homeowner: the miss returns "a\rb", the next hit returns "a\nb" | A hit returns exactly what the miss returned and stored, e.g. by reading with `newline=""` | not executed | TranslationCache.NewlineRoundTripFails | TranslationCache.ExactReportRepeat |

The `Cache` class takes the read mode as a constant. `UniversalNewlines` is the code as written; `Exact` is the corrected read. The round-trip result `ReportRepeat` states both.

/** The disk-backed translation cache: a payload, a language and a role give a
    cache key; the key names a file under `cache/defects/` or `cache/reports/`;
    a file that exists is returned, otherwise the AI provider is asked once and
    its answer is written there and returned.

    The surroundings are parameters: MD5 is any function into 32-character
    lowercase hex strings, `json.loads`/`json.dump` are a parse/render pair,
    and the provider is a function from the request to its reply (or to
    nothing, when the call fails). */
module TranslationCache {
  import opened Wrappers
  import Text
  import Json

  const MODEL: string := "llama-3.3-70b-versatile"
  const BASE_CACHE: string := "cache"

  // ---------------------------------------------------------------------------
  // Digests and keys
  // ---------------------------------------------------------------------------

  predicate IsLowerHex(c: char)
  {
    '0' <= c <= '9' || 'a' <= c <= 'f'
  }

  /** What `hashlib.md5(...).hexdigest()` returns. */
  predicate IsHexDigest(s: string)
  {
    |s| == 32 && forall i :: 0 <= i < |s| ==> IsLowerHex(s[i])
  }

  type Hex32 = s: string | IsHexDigest(s) witness "00000000000000000000000000000000"

  /** The library functions the cache calls but does not define. */
  datatype Libs = Libs(
    md5: seq<Text.byte> -> Hex32,         // hashlib.md5(b).hexdigest()
    loads: string -> Option<Json.Value>,  // json.loads / json.load; None when it raises
    dump: Json.Value -> string)           // json.dump(v, f, ensure_ascii=False, indent=2)

  /** `json.loads` returns dict trees: an object in its result never repeats a
      key, since the last value given for a key wins. */
  ghost predicate LoadsWellFormed(libs: Libs)
  {
    forall s :: libs.loads(s).Some? ==> Json.WellFormed(libs.loads(s).value)
  }

  /** Reading back what `json.dump` wrote gives the dict tree that was written. */
  ghost predicate CodecLaw(libs: Libs)
  {
    forall v :: Json.WellFormed(v) ==> libs.loads(libs.dump(v)) == Some(v)
  }

  /** `_hash_json`: MD5 of the UTF-8 bytes of the key-sorted serialisation. */
  function HashJson(libs: Libs, data: Json.Value): Hex32
  {
    libs.md5(Text.Utf8(Json.DumpsSorted(data)))
  }

  /** `_hash_text`: MD5 of the UTF-8 bytes of the text. */
  function HashText(libs: Libs, text: string): Hex32
  {
    libs.md5(Text.Utf8(text))
  }

  /** The f-string `{language}_{role}_{digest}`. */
  function Key(language: string, role: string, digest: Hex32): (k: string)
    ensures |k| == |language| + |role| + 34
    ensures k[|language|] == '_' && k[|k| - 33] == '_'
    ensures k[..|language|] == language && k[|k| - 32..] == digest
  {
    language + "_" + role + "_" + digest
  }

  /** Splits a key back into language, role and digest, given a two-letter language. */
  function ParseKey(k: string): Option<(string, string, Hex32)>
  {
    if |k| >= 36 && k[2] == '_' && k[|k| - 33] == '_' && IsHexDigest(k[|k| - 32..]) then
      Some((k[..2], k[3..|k| - 33], k[|k| - 32..]))
    else
      None
  }

  lemma KeyParses(language: string, role: string, digest: Hex32)
    requires |language| == 2
    ensures ParseKey(Key(language, role, digest)) == Some((language, role, digest))
  {
    var k := Key(language, role, digest);
    assert k[3..|k| - 33] == role;
  }

  lemma ParsedKeyRebuilds(k: string, language: string, role: string, digest: Hex32)
    requires ParseKey(k) == Some((language, role, digest))
    ensures |language| == 2 && Key(language, role, digest) == k
  {
    assert k == k[..2] + "_" + k[3..|k| - 33] + "_" + k[|k| - 32..];
  }

  /** Distinct (language, role, digest) triples give distinct keys, even when the
      role contains an underscore: the language is two letters and the digest
      32 characters wide. */
  lemma KeyInjective(l1: string, r1: string, d1: Hex32, l2: string, r2: string, d2: Hex32)
    requires |l1| == 2 && |l2| == 2
    requires Key(l1, r1, d1) == Key(l2, r2, d2)
    ensures l1 == l2 && r1 == r2 && d1 == d2
  {
    KeyParses(l1, r1, d1);
    KeyParses(l2, r2, d2);
  }

  predicate Supported(language: string)
  {
    language == "ms" || language == "en"
  }

  /** `_hash_json` does not see the order of object members. */
  lemma HashJsonIgnoresKeyOrder(libs: Libs, a: Json.Value, b: Json.Value)
    requires Json.Equal(a, b)
    ensures HashJson(libs, a) == HashJson(libs, b)
  {
    Json.DumpsSortedIgnoresKeyOrder(a, b);
  }

  /** The key of a defects payload (line 39). */
  function DefectsKey(libs: Libs, defects: Json.Value, language: string, role: string): string
  {
    Key(language, role, HashJson(libs, defects))
  }

  /** The key of a report text (line 92). */
  function ReportKey(libs: Libs, text: string, language: string, role: string): string
  {
    Key(language, role, HashText(libs, text))
  }

  /** Payloads equal up to the order of object members get the same key. */
  lemma DefectsKeyIgnoresKeyOrder(libs: Libs, a: Json.Value, b: Json.Value, language: string, role: string)
    requires Json.Equal(a, b)
    ensures DefectsKey(libs, a, language, role) == DefectsKey(libs, b, language, role)
  {
    HashJsonIgnoresKeyOrder(libs, a, b);
  }

  // ---------------------------------------------------------------------------
  // Cache paths
  // ---------------------------------------------------------------------------

  datatype Category = Defects | Reports

  function CategoryName(c: Category): string
  {
    match c
    case Defects => "defects"
    case Reports => "reports"
  }

  /** `os.path.join(BASE_CACHE, category)`. */
  function CategoryDir(c: Category): (d: string)
    ensures |d| == 13
    ensures d[..6] == BASE_CACHE + "/" && d[6..] == CategoryName(c)
  {
    BASE_CACHE + "/" + CategoryName(c)
  }

  /** `_cache_path`: `os.path.join(folder, f"{key}.cache")`. */
  function CachePath(c: Category, key: string): (p: string)
    ensures |p| == |key| + 20
    ensures p[..13] == CategoryDir(c) && p[13] == '/' && p[14..|p| - 6] == key
    ensures p[|p| - 6..] == ".cache"
  {
    CategoryDir(c) + "/" + key + ".cache"
  }

  /** Different (category, key) pairs name different files; in particular an
      entry of one category never answers a lookup in the other. */
  lemma CachePathInjective(c1: Category, k1: string, c2: Category, k2: string)
    requires CachePath(c1, k1) == CachePath(c2, k2)
    ensures c1 == c2 && k1 == k2
  {
    var p := CachePath(c1, k1);
    assert p[6] == CategoryDir(c1)[6] == CategoryDir(c2)[6];
  }

  // ---------------------------------------------------------------------------
  // Provider requests
  // ---------------------------------------------------------------------------

  datatype Payload = Structured(data: Json.Value) | FreeText(text: string)

  /** One call of `client.chat.completions.create`: the model, the temperature,
      the register the prompt asks for and the payload embedded in it. */
  datatype Request = Request(model: string, temperature: int, category: Category, target: string, payload: Payload)

  function DefectsTarget(language: string): string
  {
    if language == "ms" then "Bahasa Malaysia formal pentadbiran Tribunal"
    else "English formal administrative legal style"
  }

  function ReportTarget(language: string): string
  {
    if language == "ms" then "Bahasa Malaysia formal Tribunal"
    else "Formal English Tribunal style"
  }

  function DefectsRequest(defects: Json.Value, language: string): (q: Request)
    ensures q.model == MODEL && q.temperature == 0 && q.payload == Structured(defects)
  {
    Request(MODEL, 0, Defects, DefectsTarget(language), Structured(defects))
  }

  function ReportRequest(text: string, language: string): (q: Request)
    ensures q.model == MODEL && q.temperature == 0 && q.payload == FreeText(text)
  {
    Request(MODEL, 0, Reports, ReportTarget(language), FreeText(text))
  }

  // ---------------------------------------------------------------------------
  // The cache as a state machine
  // ---------------------------------------------------------------------------

  datatype Failure =
    | ProviderFailure  // the provider call raised
    | DecodeFailure    // json.loads rejected the provider's reply
    | CorruptEntry     // json.load rejected a cached file

  /** How a cached text file is read back. `open(path, "r")` reads in
      universal-newline mode; `Exact` is `open(path, "r", newline="")`. */
  datatype TextMode = UniversalNewlines | Exact

  function ReadText(mode: TextMode, content: string): string
  {
    match mode
    case UniversalNewlines => Text.TranslateNewlines(content)
    case Exact => content
  }

  /** What the cache can observe and change: the files (path to content), the
      directories created, every provider request issued and every path written. */
  datatype State = State(files: map<string, string>, dirs: set<string>, calls: seq<Request>, writes: seq<string>)

  /** `_cache_path`'s `_ensure_dir`: creating a directory that exists is no error. */
  function WithDir(st: State, dir: string): (r: State)
    ensures r.dirs == st.dirs + {dir}
    ensures r.files == st.files && r.calls == st.calls && r.writes == st.writes
  {
    st.(dirs := st.dirs + {dir})
  }

  function ReadDefects(libs: Libs, content: string): Result<Json.Value, Failure>
  {
    match libs.loads(content)
    case Some(v) => Ok(v)
    case None => Err(CorruptEntry)
  }

  function DefectsPassThrough(defects: Json.Value, language: string): bool
  {
    Json.Falsy(defects) || !Supported(language)
  }

  function ReportPassThrough(text: string, language: string): bool
  {
    text == [] || !Supported(language)
  }

  /** One call of `translate_defects_cached`: its result and the state after it. */
  function DefectsOutcome(libs: Libs, st: State, defects: Json.Value, language: string, role: string,
                          complete: Request -> Option<string>): (o: (Result<Json.Value, Failure>, State))
    ensures o.1.files == st.files
            || (o.0.Ok? && o.1.files == st.files[CachePath(Defects, DefectsKey(libs, defects, language, role)) := libs.dump(o.0.value)])
    ensures o.1.calls == st.calls || o.1.calls == st.calls + [DefectsRequest(defects, language)]
    ensures o.1.writes == st.writes
            || (o.0.Ok? && o.1.writes == st.writes + [CachePath(Defects, DefectsKey(libs, defects, language, role))])
    ensures o.1.dirs == st.dirs || o.1.dirs == st.dirs + {CategoryDir(Defects)}
  {
    if DefectsPassThrough(defects, language) then (Ok(defects), st)
    else
      var path := CachePath(Defects, DefectsKey(libs, defects, language, role));
      var s1 := WithDir(st, CategoryDir(Defects));
      if path in s1.files then (ReadDefects(libs, s1.files[path]), s1)
      else
        var q := DefectsRequest(defects, language);
        var s2 := s1.(calls := s1.calls + [q]);
        match complete(q)
        case None => (Err(ProviderFailure), s2)
        case Some(reply) =>
          match libs.loads(reply)
          case None => (Err(DecodeFailure), s2)
          case Some(v) => (Ok(v), s2.(files := s2.files[path := libs.dump(v)], writes := s2.writes + [path]))
  }

  /** One call of `translate_report_cached`: its result and the state after it. */
  function ReportOutcome(libs: Libs, mode: TextMode, st: State, text: string, language: string, role: string,
                         complete: Request -> Option<string>): (o: (Result<string, Failure>, State))
    ensures o.1.files == st.files
            || (o.0.Ok? && o.1.files == st.files[CachePath(Reports, ReportKey(libs, text, language, role)) := o.0.value])
    ensures o.1.calls == st.calls || o.1.calls == st.calls + [ReportRequest(text, language)]
    ensures o.1.writes == st.writes
            || (o.0.Ok? && o.1.writes == st.writes + [CachePath(Reports, ReportKey(libs, text, language, role))])
    ensures o.1.dirs == st.dirs || o.1.dirs == st.dirs + {CategoryDir(Reports)}
  {
    if ReportPassThrough(text, language) then (Ok(text), st)
    else
      var path := CachePath(Reports, ReportKey(libs, text, language, role));
      var s1 := WithDir(st, CategoryDir(Reports));
      if path in s1.files then (Ok(ReadText(mode, s1.files[path])), s1)
      else
        var q := ReportRequest(text, language);
        var s2 := s1.(calls := s1.calls + [q]);
        match complete(q)
        case None => (Err(ProviderFailure), s2)
        case Some(reply) =>
          var translated := Text.Strip(reply);
          (Ok(translated), s2.(files := s2.files[path := translated], writes := s2.writes + [path]))
  }

  // ---------------------------------------------------------------------------
  // Properties of a single call
  // ---------------------------------------------------------------------------

  /** A falsy payload or a language other than ms/en is returned as it is, and
      nothing is created, read, written or asked for. */
  lemma DefectsPassThroughUnchanged(libs: Libs, st: State, defects: Json.Value, language: string, role: string,
                                    complete: Request -> Option<string>)
    requires DefectsPassThrough(defects, language)
    ensures DefectsOutcome(libs, st, defects, language, role, complete) == (Ok(defects), st)
  {
  }

  lemma ReportPassThroughUnchanged(libs: Libs, mode: TextMode, st: State, text: string, language: string,
                                   role: string, complete: Request -> Option<string>)
    requires ReportPassThrough(text, language)
    ensures ReportOutcome(libs, mode, st, text, language, role, complete) == (Ok(text), st)
  {
  }

  /** On a hit the stored value is returned: no provider call, no write. */
  lemma DefectsHit(libs: Libs, st: State, defects: Json.Value, language: string, role: string,
                   complete: Request -> Option<string>)
    requires !DefectsPassThrough(defects, language)
    requires CachePath(Defects, DefectsKey(libs, defects, language, role)) in st.files
    ensures var (r, st') := DefectsOutcome(libs, st, defects, language, role, complete);
      && r == ReadDefects(libs, st.files[CachePath(Defects, DefectsKey(libs, defects, language, role))])
      && st' == WithDir(st, CategoryDir(Defects))
  {
  }

  lemma ReportHit(libs: Libs, mode: TextMode, st: State, text: string, language: string, role: string,
                  complete: Request -> Option<string>)
    requires !ReportPassThrough(text, language)
    requires CachePath(Reports, ReportKey(libs, text, language, role)) in st.files
    ensures var (r, st') := ReportOutcome(libs, mode, st, text, language, role, complete);
      && r == Ok(ReadText(mode, st.files[CachePath(Reports, ReportKey(libs, text, language, role))]))
      && st' == WithDir(st, CategoryDir(Reports))
  {
  }

  /** On a miss the provider is asked exactly once, with MODEL at temperature 0;
      a reply that parses is written once at the derived path and returned; a
      failed call or a reply that does not parse writes nothing. */
  lemma DefectsMiss(libs: Libs, st: State, defects: Json.Value, language: string, role: string,
                    complete: Request -> Option<string>)
    requires !DefectsPassThrough(defects, language)
    requires CachePath(Defects, DefectsKey(libs, defects, language, role)) !in st.files
    ensures var (r, st') := DefectsOutcome(libs, st, defects, language, role, complete);
      var path := CachePath(Defects, DefectsKey(libs, defects, language, role));
      var q := DefectsRequest(defects, language);
      && st'.calls == st.calls + [q]
      && st'.dirs == st.dirs + {CategoryDir(Defects)}
      && (r.Ok? <==> complete(q).Some? && libs.loads(complete(q).value).Some?)
      && (r.Ok? ==> r.value == libs.loads(complete(q).value).value
                    && st'.files == st.files[path := libs.dump(r.value)]
                    && st'.writes == st.writes + [path])
      && (r.Err? ==> st'.files == st.files && st'.writes == st.writes
                     && r.error == (if complete(q).None? then ProviderFailure else DecodeFailure))
  {
  }

  lemma ReportMiss(libs: Libs, mode: TextMode, st: State, text: string, language: string, role: string,
                   complete: Request -> Option<string>)
    requires !ReportPassThrough(text, language)
    requires CachePath(Reports, ReportKey(libs, text, language, role)) !in st.files
    ensures var (r, st') := ReportOutcome(libs, mode, st, text, language, role, complete);
      var path := CachePath(Reports, ReportKey(libs, text, language, role));
      var q := ReportRequest(text, language);
      && st'.calls == st.calls + [q]
      && st'.dirs == st.dirs + {CategoryDir(Reports)}
      && (r.Ok? <==> complete(q).Some?)
      && (r.Ok? ==> r.value == Text.Strip(complete(q).value)
                    && st'.files == st.files[path := r.value]
                    && st'.writes == st.writes + [path])
      && (r.Err? ==> st'.files == st.files && st'.writes == st.writes && r.error == ProviderFailure)
  {
  }

  /** A call never issues more than one provider request nor writes more than
      one file, and never removes or rewrites an existing file. */
  lemma DefectsAtMostOnce(libs: Libs, st: State, defects: Json.Value, language: string, role: string,
                          complete: Request -> Option<string>)
    ensures var (r, st') := DefectsOutcome(libs, st, defects, language, role, complete);
      && |st.calls| <= |st'.calls| <= |st.calls| + 1
      && |st.writes| <= |st'.writes| <= |st.writes| + (|st'.calls| - |st.calls|)
      && (|st'.writes| > |st.writes| ==> r.Ok?)
      && st'.writes[..|st.writes|] == st.writes
      && forall p :: p in st.files ==> p in st'.files && st'.files[p] == st.files[p]
  {
    if !DefectsPassThrough(defects, language) {
      if CachePath(Defects, DefectsKey(libs, defects, language, role)) in st.files {
        DefectsHit(libs, st, defects, language, role, complete);
      } else {
        DefectsMiss(libs, st, defects, language, role, complete);
      }
    }
  }

  lemma ReportAtMostOnce(libs: Libs, mode: TextMode, st: State, text: string, language: string, role: string,
                         complete: Request -> Option<string>)
    ensures var (r, st') := ReportOutcome(libs, mode, st, text, language, role, complete);
      && |st.calls| <= |st'.calls| <= |st.calls| + 1
      && |st.writes| <= |st'.writes| <= |st.writes| + (|st'.calls| - |st.calls|)
      && (|st'.writes| > |st.writes| ==> r.Ok?)
      && st'.writes[..|st.writes|] == st.writes
      && forall p :: p in st.files ==> p in st'.files && st'.files[p] == st.files[p]
  {
    if !ReportPassThrough(text, language) {
      if CachePath(Reports, ReportKey(libs, text, language, role)) in st.files {
        ReportHit(libs, mode, st, text, language, role, complete);
      } else {
        ReportMiss(libs, mode, st, text, language, role, complete);
      }
    }
  }

  // ---------------------------------------------------------------------------
  // Properties of two calls
  // ---------------------------------------------------------------------------

  /** After a successful call the entry is on disk, its folder exists, and
      reading the entry back gives the value the call returned. */
  lemma DefectsStored(libs: Libs, st: State, defects: Json.Value, language: string, role: string,
                      c1: Request -> Option<string>)
    requires CodecLaw(libs) && LoadsWellFormed(libs)
    requires !DefectsPassThrough(defects, language)
    requires DefectsOutcome(libs, st, defects, language, role, c1).0.Ok?
    ensures var (r1, st1) := DefectsOutcome(libs, st, defects, language, role, c1);
      var path := CachePath(Defects, DefectsKey(libs, defects, language, role));
      && path in st1.files && ReadDefects(libs, st1.files[path]) == r1
      && CategoryDir(Defects) in st1.dirs
  {
    var path := CachePath(Defects, DefectsKey(libs, defects, language, role));
    if path in st.files {
      DefectsHit(libs, st, defects, language, role, c1);
    } else {
      DefectsMiss(libs, st, defects, language, role, c1);
      var (r1, st1) := DefectsOutcome(libs, st, defects, language, role, c1);
      var q := DefectsRequest(defects, language);
      assert libs.loads(c1(q).value) == Some(r1.value);
      assert Json.WellFormed(r1.value);
      assert libs.loads(libs.dump(r1.value)) == Some(r1.value);
    }
  }

  /** A second identical call returns what the first one returned, from the
      cache: whatever the provider would now answer, it is not asked. */
  lemma DefectsRepeat(libs: Libs, st: State, defects: Json.Value, language: string, role: string,
                      c1: Request -> Option<string>, c2: Request -> Option<string>)
    requires CodecLaw(libs) && LoadsWellFormed(libs)
    requires !DefectsPassThrough(defects, language)
    requires DefectsOutcome(libs, st, defects, language, role, c1).0.Ok?
    ensures var (r1, st1) := DefectsOutcome(libs, st, defects, language, role, c1);
      var (r2, st2) := DefectsOutcome(libs, st1, defects, language, role, c2);
      r2 == r1 && st2 == st1
  {
    var st1 := DefectsOutcome(libs, st, defects, language, role, c1).1;
    DefectsStored(libs, st, defects, language, role, c1);
    DefectsHit(libs, st1, defects, language, role, c2);
    assert st1.dirs + {CategoryDir(Defects)} == st1.dirs;
  }

  /** A payload that differs from an earlier one only in the order of object
      members is answered from the entry the earlier call left. */
  lemma DefectsReorderedHits(libs: Libs, st: State, a: Json.Value, b: Json.Value, language: string, role: string,
                             c1: Request -> Option<string>, c2: Request -> Option<string>)
    requires CodecLaw(libs) && LoadsWellFormed(libs)
    requires Json.Equal(a, b)
    requires !DefectsPassThrough(a, language)
    requires DefectsOutcome(libs, st, a, language, role, c1).0.Ok?
    ensures var (r1, st1) := DefectsOutcome(libs, st, a, language, role, c1);
      var (r2, st2) := DefectsOutcome(libs, st1, b, language, role, c2);
      r2 == r1 && st2 == st1
  {
    EqualFalsy(a, b);
    DefectsKeyIgnoresKeyOrder(libs, a, b, language, role);
    var st1 := DefectsOutcome(libs, st, a, language, role, c1).1;
    DefectsStored(libs, st, a, language, role, c1);
    DefectsHit(libs, st1, b, language, role, c2);
    assert st1.dirs + {CategoryDir(Defects)} == st1.dirs;
  }

  lemma EqualFalsy(a: Json.Value, b: Json.Value)
    requires Json.Equal(a, b)
    ensures Json.Falsy(a) <==> Json.Falsy(b)
  {
    if a.JObj? && a.members != [] {
      assert a.members[0].0 in Json.Keys(a.members);
    }
    if b.JObj? && b.members != [] {
      assert b.members[0].0 in Json.Keys(b.members);
    }
  }

  /** A report entry read back exactly gives the second call what the first
      returned. A file read in universal-newline mode, as the source opens it,
      does so exactly when the stored text holds no carriage return. */
  lemma ReportRepeat(libs: Libs, mode: TextMode, st: State, text: string, language: string, role: string,
                     c1: Request -> Option<string>, c2: Request -> Option<string>)
    requires !ReportPassThrough(text, language)
    requires ReportOutcome(libs, mode, st, text, language, role, c1).0.Ok?
    ensures var (r1, st1) := ReportOutcome(libs, mode, st, text, language, role, c1);
      var (r2, st2) := ReportOutcome(libs, mode, st1, text, language, role, c2);
      var path := CachePath(Reports, ReportKey(libs, text, language, role));
      && st2 == st1
      && (path !in st.files ==> r2 == Ok(ReadText(mode, r1.value))
                                && (r2 == r1 <==> mode == Exact || '\r' !in r1.value))
      && (path in st.files ==> r2 == r1)
  {
    var path := CachePath(Reports, ReportKey(libs, text, language, role));
    var (r1, st1) := ReportOutcome(libs, mode, st, text, language, role, c1);
    if path !in st.files && mode == UniversalNewlines && '\r' in r1.value {
      assert '\r' !in Text.TranslateNewlines(r1.value);
    }
  }

  /** With the file read back exactly, a repeated report call returns what the
      first returned, from the cache, and changes nothing. */
  lemma ExactReportRepeat(libs: Libs, st: State, text: string, language: string, role: string,
                          c1: Request -> Option<string>, c2: Request -> Option<string>)
    requires !ReportPassThrough(text, language)
    requires ReportOutcome(libs, Exact, st, text, language, role, c1).0.Ok?
    ensures var (r1, st1) := ReportOutcome(libs, Exact, st, text, language, role, c1);
      var (r2, st2) := ReportOutcome(libs, Exact, st1, text, language, role, c2);
      r2 == r1 && st2 == st1
  {
    ReportRepeat(libs, Exact, st, text, language, role, c1, c2);
  }

  /** The report written on a miss comes back changed on the next call when the
      provider's reply holds a carriage return: "a\rb" is stored and returned,
      and the hit then returns "a\nb". */
  lemma NewlineRoundTripFails(libs: Libs)
    ensures var st := State(map[], {}, [], []);
      var reply := (q: Request) => Some("a\rb");
      var (r1, st1) := ReportOutcome(libs, UniversalNewlines, st, "Laporan", "ms", "Homeowner", reply);
      var (r2, st2) := ReportOutcome(libs, UniversalNewlines, st1, "Laporan", "ms", "Homeowner", reply);
      r1 == Ok("a\rb") && r2 == Ok("a\nb")
  {
    var st := State(map[], {}, [], []);
    var reply := (q: Request) => Some("a\rb");
    var path := CachePath(Reports, ReportKey(libs, "Laporan", "ms", "Homeowner"));
    SampleReply();
    ReportMiss(libs, UniversalNewlines, st, "Laporan", "ms", "Homeowner", reply);
    var (r1, st1) := ReportOutcome(libs, UniversalNewlines, st, "Laporan", "ms", "Homeowner", reply);
    assert r1 == Ok("a\rb");
    assert st1.files[path] == "a\rb";
    ReportHit(libs, UniversalNewlines, st1, "Laporan", "ms", "Homeowner", reply);
  }

  lemma SampleReply()
    ensures Text.Strip("a\rb") == "a\rb"
    ensures Text.TranslateNewlines("a\rb") == "a\nb"
  {
    assert Text.LeadingSpaces("a\rb") == 0;
    assert Text.TrailingSpaces("a\rb") == 0;
    assert "a\rb"[0..] == "a\rb";
    assert Text.TranslateNewlines("b") == "b";
    assert Text.TranslateNewlines("\rb") == "\nb";
  }

  /** An entry of one category is never touched by a call of the other: a
      report call leaves every defects file as it was, and the reverse. */
  lemma ReportLeavesDefectsAlone(libs: Libs, mode: TextMode, st: State, text: string, language: string,
                                 role: string, complete: Request -> Option<string>, key: string)
    ensures var st' := ReportOutcome(libs, mode, st, text, language, role, complete).1;
      (CachePath(Defects, key) in st'.files <==> CachePath(Defects, key) in st.files)
      && (CachePath(Defects, key) in st.files ==> st'.files[CachePath(Defects, key)] == st.files[CachePath(Defects, key)])
  {
    if !ReportPassThrough(text, language) {
      var rkey := ReportKey(libs, text, language, role);
      if CachePath(Defects, key) == CachePath(Reports, rkey) {
        CachePathInjective(Defects, key, Reports, rkey);
      }
      if CachePath(Reports, rkey) in st.files {
        ReportHit(libs, mode, st, text, language, role, complete);
      } else {
        ReportMiss(libs, mode, st, text, language, role, complete);
      }
    }
  }


  lemma DefectsLeaveReportsAlone(libs: Libs, st: State, defects: Json.Value, language: string, role: string,
                                 complete: Request -> Option<string>, key: string)
    ensures var st' := DefectsOutcome(libs, st, defects, language, role, complete).1;
      (CachePath(Reports, key) in st'.files <==> CachePath(Reports, key) in st.files)
      && (CachePath(Reports, key) in st.files ==> st'.files[CachePath(Reports, key)] == st.files[CachePath(Reports, key)])
  {
    if !DefectsPassThrough(defects, language) {
      var dkey := DefectsKey(libs, defects, language, role);
      if CachePath(Reports, key) == CachePath(Defects, dkey) {
        CachePathInjective(Reports, key, Defects, dkey);
      }
      if CachePath(Defects, dkey) in st.files {
        DefectsHit(libs, st, defects, language, role, complete);
      } else {
        DefectsMiss(libs, st, defects, language, role, complete);
      }
    }
  }


  // ---------------------------------------------------------------------------
  // The cache object: files, directories, provider log and write log change
  // ---------------------------------------------------------------------------

  class Cache {
    const libs: Libs
    const mode: TextMode
    var files: map<string, string>
    var dirs: set<string>
    var calls: seq<Request>
    var writes: seq<string>

    function Snapshot(): State
      reads this
    {
      State(files, dirs, calls, writes)
    }

    /** A cache over an existing directory tree; nothing asked or written yet. */
    constructor (libs: Libs, mode: TextMode, files: map<string, string>, dirs: set<string>)
      ensures this.libs == libs && this.mode == mode
      ensures Snapshot() == State(files, dirs, [], [])
    {
      this.libs := libs;
      this.mode := mode;
      this.files := files;
      this.dirs := dirs;
      this.calls := [];
      this.writes := [];
    }

    /** `_ensure_dir`: `os.makedirs(path, exist_ok=True)`. */
    method EnsureDir(path: string)
      modifies this
      ensures Snapshot() == WithDir(old(Snapshot()), path)
    {
      dirs := dirs + {path};
    }

    /** `_cache_path`: creates the category's folder and names the entry's file. */
    method CachePathFor(category: Category, key: string) returns (path: string)
      modifies this
      ensures path == CachePath(category, key)
      ensures Snapshot() == WithDir(old(Snapshot()), CategoryDir(category))
    {
      EnsureDir(CategoryDir(category));
      path := CachePath(category, key);
    }

    /** Writes one file and records the write. */
    method WriteFile(path: string, content: string)
      modifies this
      ensures files == old(files)[path := content] && writes == old(writes) + [path]
      ensures dirs == old(dirs) && calls == old(calls)
    {
      files := files[path := content];
      writes := writes + [path];
    }

    /** Issues one provider request and records it. */
    method Ask(q: Request, complete: Request -> Option<string>) returns (reply: Option<string>)
      modifies this
      ensures reply == complete(q) && calls == old(calls) + [q]
      ensures files == old(files) && dirs == old(dirs) && writes == old(writes)
    {
      calls := calls + [q];
      reply := complete(q);
    }

    /** `translate_defects_cached`. */
    method TranslateDefectsCached(defects: Json.Value, language: string, role: string,
                                  complete: Request -> Option<string>)
      returns (r: Result<Json.Value, Failure>)
      modifies this
      ensures (r, Snapshot()) == DefectsOutcome(libs, old(Snapshot()), defects, language, role, complete)
    {
      if Json.Falsy(defects) || !Supported(language) {
        return Ok(defects);
      }
      var key := Key(language, role, HashJson(libs, defects));
      var path := CachePathFor(Defects, key);
      if path in files {
        return ReadDefects(libs, files[path]);
      }
      var reply := Ask(DefectsRequest(defects, language), complete);
      if reply.None? {
        return Err(ProviderFailure);
      }
      var parsed := libs.loads(reply.value);
      if parsed.None? {
        return Err(DecodeFailure);
      }
      WriteFile(path, libs.dump(parsed.value));
      r := Ok(parsed.value);
    }

    /** `translate_report_cached`. */
    method TranslateReportCached(text: string, language: string, role: string,
                                 complete: Request -> Option<string>)
      returns (r: Result<string, Failure>)
      modifies this
      ensures (r, Snapshot()) == ReportOutcome(libs, mode, old(Snapshot()), text, language, role, complete)
    {
      if text == [] || !Supported(language) {
        return Ok(text);
      }
      var key := Key(language, role, HashText(libs, text));
      var path := CachePathFor(Reports, key);
      if path in files {
        return Ok(ReadText(mode, files[path]));
      }
      var reply := Ask(ReportRequest(text, language), complete);
      if reply.None? {
        return Err(ProviderFailure);
      }
      var translated := Text.Strip(reply.value);
      WriteFile(path, translated);
      r := Ok(translated);
    }
  }
}

/**
 * The backend's configuration endpoint (`ConfigurationHandler`): saving the
 * settings a client submits through the credentials manager, keeping the
 * GitHub token in the `.env` file, and reporting which services are
 * configured without revealing any secret.
 *
 * The `.env` file is a list of lines (without their line breaks); its keys
 * and values are kept in an association list, which is how a Python dict
 * keeps insertion order.
 */
module ConfigurationApi {
  import opened Wrappers
  import opened Text
  import opened Credentials
  import opened Dicts

  /** The `.env` file's variables, in insertion order. */
  type EnvDict = Dict<string>

  // ---------------------------------------------------------------------------
  // Reading and writing `.env`
  // ---------------------------------------------------------------------------

  /**
   * One line of `.env`: skipped when blank after stripping or when the raw
   * line starts with `#`; otherwise the stripped line split at its first
   * `=`, and dropped when it has none.
   */
  function SplitLine(line: string): (r: Option<(string, string)>)
    ensures r.Some? ==> Strip(line) == r.value.0 + "=" + r.value.1
    ensures r.Some? ==> !StartsWith(line, "#") && '=' !in r.value.0
    ensures r.None? ==> Strip(line) == "" || StartsWith(line, "#") || '=' !in Strip(line)
  {
    var t := Strip(line);
    if t == "" || StartsWith(line, "#") then None else SplitAtEquals(t)
  }

  /** `line.split('=', 1)` when the line has an `=`. */
  function SplitAtEquals(t: string): (r: Option<(string, string)>)
    ensures r.Some? ==> t == r.value.0 + "=" + r.value.1 && '=' !in r.value.0
    ensures r.None? ==> '=' !in t
  {
    match IndexOfChar(t, '=')
    case None => None
    case Some(i) =>
      assert t == t[..i] + "=" + t[i + 1..];
      Some((t[..i], t[i + 1..]))
  }

  /** The dict the reading loop builds from the lines seen so far. */
  function ParseLines(lines: seq<string>): EnvDict
    decreases |lines|
  {
    if lines == [] then []
    else
      var d := ParseLines(lines[..|lines| - 1]);
      match SplitLine(lines[|lines| - 1])
      case None => d
      case Some((k, v)) => Put(d, k, v)
  }

  /** The value the last usable line for `k` gives it: the later line wins. */
  function LastValue(lines: seq<string>, k: string): Option<string>
    decreases |lines|
  {
    if lines == [] then None
    else
      match SplitLine(lines[|lines| - 1])
      case Some((k', v)) => if k' == k then Some(v) else LastValue(lines[..|lines| - 1], k)
      case None => LastValue(lines[..|lines| - 1], k)
  }

  /**
   * Every key of the parsed dict occurs once, and its value is the one its
   * last usable line gives it; keys without a usable line are absent.
   */
  lemma {:induction false} ParseLinesLastWins(lines: seq<string>, k: string)
    ensures UniqueKeys(ParseLines(lines))
    ensures Lookup(ParseLines(lines), k) == LastValue(lines, k)
    decreases |lines|
  {
    if lines != [] {
      var init := lines[..|lines| - 1];
      ParseLinesLastWins(init, k);
      match SplitLine(lines[|lines| - 1])
      case None =>
      case Some((k', v)) =>
        PutUnique(ParseLines(init), k', v);
        if k' == k {
          PutLookupSame(ParseLines(init), k', v);
        } else {
          PutLookupOther(ParseLines(init), k', v, k);
        }
    }
  }

  /** The loop of `update_configuration` over the lines of `.env`. */
  method ReadEnv(lines: seq<string>) returns (envContent: EnvDict)
    ensures envContent == ParseLines(lines)
    ensures UniqueKeys(envContent)
  {
    envContent := [];
    var n := 0;
    while n < |lines|
      invariant 0 <= n <= |lines|
      invariant envContent == ParseLines(lines[..n])
    {
      assert lines[..n + 1][..n] == lines[..n];
      var split := SplitLine(lines[n]);
      if split.Some? {
        envContent := Put(envContent, split.value.0, split.value.1);
      }
      n := n + 1;
    }
    assert lines[..n] == lines;
    ParseLinesLastWins(lines, "");
  }

  /** One `key=value` line per entry, in dict order. */
  function Serialize(d: EnvDict): (lines: seq<string>)
    ensures |lines| == |d|
    ensures forall i :: 0 <= i < |d| ==> lines[i] == d[i].0 + "=" + d[i].1
  {
    seq(|d|, i requires 0 <= i < |d| => d[i].0 + "=" + d[i].1)
  }

  /** The writing loop of `update_configuration`. */
  method WriteEnv(envContent: EnvDict) returns (lines: seq<string>)
    ensures lines == Serialize(envContent)
  {
    lines := [];
    var i := 0;
    while i < |envContent|
      invariant 0 <= i <= |envContent|
      invariant lines == Serialize(envContent[..i])
    {
      lines := lines + [envContent[i].0 + "=" + envContent[i].1];
      i := i + 1;
    }
    assert envContent[..i] == envContent;
  }

  /**
   * An entry that survives being written and read back. A line break in
   * either part would split the written line when the file is read again.
   */
  predicate WellFormedEntry(k: string, v: string) {
    && '\n' !in k && '\r' !in k && '\n' !in v && '\r' !in v
    && '=' !in k
    && (k == [] || (k[0] != '#' && !IsSpace(k[0])))
    && (v == [] || !IsSpace(v[|v| - 1]))
  }

  lemma SplitWrittenLine(k: string, v: string)
    requires WellFormedEntry(k, v)
    ensures SplitLine(k + "=" + v) == Some((k, v))
  {
    var line := k + "=" + v;
    if k != [] { assert line[0] == k[0]; }
    StripUnchanged(line);
    assert !StartsWith(line, "#");
    SplitWrittenEquals(k, v);
  }

  /** The first `=` of a written line is the one after the key. */
  lemma SplitWrittenEquals(k: string, v: string)
    requires '=' !in k
    ensures SplitAtEquals(k + "=" + v) == Some((k, v))
  {
    var line := k + "=" + v;
    assert line[|k|] == '=';
    var i := IndexOfChar(line, '=');
    assert i.Some? by {
      assert line[|k|] in line;
    }
    assert line[..|k|] == k && line[|k| + 1..] == v;
  }

  /** In a dict with unique keys, the last entry's key is not among the others. */
  lemma LastKeyIsNew(d: EnvDict)
    requires UniqueKeys(d) && d != []
    ensures d == d[..|d| - 1] + [(d[|d| - 1].0, d[|d| - 1].1)]
    ensures d[|d| - 1].0 !in Keys(d[..|d| - 1])
  {
  }

  /**
   * Writing a dict and reading it back gives the same dict, when its keys
   * are unique and every entry is well formed.
   */
  lemma {:induction false} ParseSerializeRoundTrip(d: EnvDict)
    requires UniqueKeys(d)
    requires forall i :: 0 <= i < |d| ==> WellFormedEntry(d[i].0, d[i].1)
    ensures ParseLines(Serialize(d)) == d
    decreases |d|
  {
    if d != [] {
      var init := d[..|d| - 1];
      var k, v := d[|d| - 1].0, d[|d| - 1].1;
      var lines := Serialize(d);
      assert lines[..|lines| - 1] == Serialize(init);
      assert lines[|lines| - 1] == k + "=" + v;
      ParseSerializeRoundTrip(init);
      SplitWrittenLine(k, v);
      assert ParseLines(lines) == Put(init, k, v);
      LastKeyIsNew(d);
    }
  }

  /**
   * The GitHub token rewrite: `GITHUB_TOKEN` maps to the new token, every
   * other key read from the old file keeps its value, and an existing
   * `GITHUB_TOKEN` keeps its place.
   */
  lemma RewriteKeepsOthers(previous: seq<string>, token: string, k: string)
    ensures var d := Put(ParseLines(previous), "GITHUB_TOKEN", token);
      && Lookup(d, "GITHUB_TOKEN") == Some(token)
      && (k != "GITHUB_TOKEN" ==> Lookup(d, k) == LastValue(previous, k))
      && ("GITHUB_TOKEN" in Keys(ParseLines(previous)) ==> Keys(d) == Keys(ParseLines(previous)))
      && UniqueKeys(d)
  {
    ParseLinesLastWins(previous, k);
    PutUnique(ParseLines(previous), "GITHUB_TOKEN", token);
    PutLookupSame(ParseLines(previous), "GITHUB_TOKEN", token);
    if k != "GITHUB_TOKEN" {
      PutLookupOther(ParseLines(previous), "GITHUB_TOKEN", token, k);
    }
  }

  // ---------------------------------------------------------------------------
  // The handler
  // ---------------------------------------------------------------------------

  /** The request body; "" stands for a field that is absent or empty. */
  datatype ConfigurationModel = ConfigurationModel(
    huggingfaceToken: string, githubToken: string, openaiApiKey: string,
    neo4jUri: string, neo4jUsername: string, neo4jPassword: string)

  /** The username saved with a Hugging Face token. */
  const DefaultHuggingFaceUser := "homework_user"
  const UpdatedMessage := "Configuration updated successfully"

  /** A call to the credentials manager. */
  datatype SaveCall =
    | SaveHuggingFace(username: string, token: string)
    | SaveOpenAi(key: string)
    | SaveNeo4j(uri: string, username: string, password: string)

  /** The saves an update performs, in order. */
  function SavesFor(m: ConfigurationModel): (calls: seq<SaveCall>)
    ensures SaveHuggingFace(DefaultHuggingFaceUser, m.huggingfaceToken) in calls <==> m.huggingfaceToken != ""
    ensures SaveOpenAi(m.openaiApiKey) in calls <==> m.openaiApiKey != ""
    ensures SaveNeo4j(m.neo4jUri, m.neo4jUsername, m.neo4jPassword) in calls
        <==> m.neo4jUri != "" && m.neo4jUsername != "" && m.neo4jPassword != ""
    ensures forall c :: c in calls && c.SaveNeo4j? ==> c.uri != "" && c.username != "" && c.password != ""
    ensures forall c :: c in calls ==>
      c == SaveHuggingFace(DefaultHuggingFaceUser, m.huggingfaceToken) || c == SaveOpenAi(m.openaiApiKey)
      || c == SaveNeo4j(m.neo4jUri, m.neo4jUsername, m.neo4jPassword)
    ensures forall i, j :: 0 <= i < j < |calls| ==> SaveRank(calls[i]) < SaveRank(calls[j])
    ensures |calls| <= 3
  {
    (if m.huggingfaceToken != "" then [SaveHuggingFace(DefaultHuggingFaceUser, m.huggingfaceToken)] else [])
      + (if m.openaiApiKey != "" then [SaveOpenAi(m.openaiApiKey)] else [])
      + (if m.neo4jUri != "" && m.neo4jUsername != "" && m.neo4jPassword != "" then
           [SaveNeo4j(m.neo4jUri, m.neo4jUsername, m.neo4jPassword)]
         else [])
  }

  /** The position of a call in the handler's order: Hugging Face, OpenAI, Neo4j. */
  function SaveRank(call: SaveCall): nat {
    match call
    case SaveHuggingFace(_, _) => 0
    case SaveOpenAi(_) => 1
    case SaveNeo4j(_, _, _) => 2
  }

  /** What the saves change: the config file, the keyring and the debug log. */
  datatype SaveState = SaveState(file: ConfigFile, store: map<string, string>, log: seq<Config>)

  /** The config a save call writes and the keyring after it. */
  function SaveOutcome(file: ConfigFile, store: map<string, string>, hasKeyring: bool, rejects: set<string>,
                       call: SaveCall): (Config, map<string, string>)
  {
    match call
    case SaveHuggingFace(u, t) =>
      SaveSecrets(LoadConfig(file)[HuggingFaceUserKey := Str(u)], store, hasKeyring, rejects, [(HuggingFaceKey, t)])
    case SaveOpenAi(k) => SaveSecrets(LoadConfig(file), store, hasKeyring, rejects, [(OpenAiKey, k)])
    case SaveNeo4j(uri, u, p) =>
      SaveSecrets(LoadConfig(file), store, hasKeyring, rejects,
                  [(Neo4jUriKey, uri), (Neo4jUserKey, u), (Neo4jPasswordKey, p)])
  }

  /** The state after one save call; `_save_config` logs the redacted config it writes. */
  function ApplySave(st: SaveState, hasKeyring: bool, rejects: set<string>, writable: bool,
                     call: SaveCall): SaveState
  {
    var outcome := SaveOutcome(st.file, st.store, hasKeyring, rejects, call);
    SaveState(AfterSave(st.file, outcome.0, writable), outcome.1, st.log + [Redact(outcome.0)])
  }

  /** The state after a sequence of saves. */
  function ApplySaves(st: SaveState, hasKeyring: bool, rejects: set<string>, writable: bool,
                      calls: seq<SaveCall>): SaveState
    decreases |calls|
  {
    if calls == [] then st
    else ApplySaves(ApplySave(st, hasKeyring, rejects, writable, calls[0]), hasKeyring, rejects, writable, calls[1..])
  }

  /** A logged config shows no credential: each sensitive key present reads `*****`. */
  predicate Redacted(entry: Config) {
    forall k :: k in entry && k in SensitiveKeys ==> entry[k] == Str(Mask)
  }

  /** One save appends one entry to the log, and that entry shows no credential. */
  lemma ApplySaveLogged(st: SaveState, hasKeyring: bool, rejects: set<string>, writable: bool, call: SaveCall)
    ensures var r := ApplySave(st, hasKeyring, rejects, writable, call);
      |r.log| == |st.log| + 1 && r.log[..|st.log|] == st.log && Redacted(r.log[|st.log|])
  {
    RedactHidesCredentials(SaveOutcome(st.file, st.store, hasKeyring, rejects, call).0);
  }

  /** The saves only append to the log, one entry per call. */
  lemma {:induction false} SavesLogAppends(st: SaveState, hasKeyring: bool, rejects: set<string>, writable: bool,
                                           calls: seq<SaveCall>)
    ensures var r := ApplySaves(st, hasKeyring, rejects, writable, calls);
      |r.log| == |st.log| + |calls| && r.log[..|st.log|] == st.log
    decreases |calls|
  {
    if calls != [] {
      var next := ApplySave(st, hasKeyring, rejects, writable, calls[0]);
      ApplySaveLogged(st, hasKeyring, rejects, writable, calls[0]);
      SavesLogAppends(next, hasKeyring, rejects, writable, calls[1..]);
      var r := ApplySaves(next, hasKeyring, rejects, writable, calls[1..]);
      assert r.log[..|st.log|] == r.log[..|next.log|][..|st.log|];
    }
  }

  /** No entry the saves append to the log shows a credential. */
  lemma {:induction false} SavesLogRedacted(st: SaveState, hasKeyring: bool, rejects: set<string>, writable: bool,
                                            calls: seq<SaveCall>)
    ensures var r := ApplySaves(st, hasKeyring, rejects, writable, calls);
      forall i :: |st.log| <= i < |r.log| ==> Redacted(r.log[i])
    decreases |calls|
  {
    if calls != [] {
      var next := ApplySave(st, hasKeyring, rejects, writable, calls[0]);
      ApplySaveLogged(st, hasKeyring, rejects, writable, calls[0]);
      SavesLogRedacted(next, hasKeyring, rejects, writable, calls[1..]);
      SavesLogAppends(next, hasKeyring, rejects, writable, calls[1..]);
      var r := ApplySaves(next, hasKeyring, rejects, writable, calls[1..]);
      forall i | |st.log| <= i < |r.log|
        ensures Redacted(r.log[i])
      {
        if i == |st.log| {
          assert r.log[i] == r.log[..|next.log|][i] == next.log[i];
        }
      }
    }
  }

  datatype UpdateResponse = Updated | HttpError(statusCode: int, detail: string)

  /** The items of the status report. */
  datatype ConfigurationStatus = ConfigurationStatus(
    huggingfaceConfigured: bool, githubConfigured: bool, openaiConfigured: bool,
    neo4jConfigured: bool, missingConfigs: seq<string>)

  /** The report for the values the lookups found. */
  function StatusFrom(hfToken: Value, openAiKey: Option<Value>, neo4j: Option<Neo4jCredentials>,
                      githubToken: Value): (r: ConfigurationStatus)
    ensures r.missingConfigs == [] <==> r.huggingfaceConfigured
    ensures r.missingConfigs != [] ==> r.missingConfigs == [HuggingFaceKey]
    ensures r.huggingfaceConfigured == Truthy(hfToken) && r.githubConfigured == Truthy(githubToken)
    ensures r.openaiConfigured == openAiKey.Some? && r.neo4jConfigured == neo4j.Some?
  {
    ConfigurationStatus(
      huggingfaceConfigured := Truthy(hfToken),
      githubConfigured := Truthy(githubToken),
      openaiConfigured := openAiKey.Some?,
      neo4jConfigured := neo4j.Some?,
      missingConfigs := if !Truthy(hfToken) then [HuggingFaceKey] else [])
  }

  /** What `get_configuration_status` produces: the report, the process environment and whether a keyring read raised. */
  datatype StatusRun = StatusRun(report: ConfigurationStatus, osEnv: map<string, string>, raised: bool)

  /**
   * The lookups of `get_configuration_status` in their order: the Hugging
   * Face token, the OpenAI key (which may export a key from `.env`), then the
   * Neo4j trio over the environment as the OpenAI lookup left it. A keyring
   * read that raises drops the keyring for the lookups after it.
   */
  function StatusLookups(hasKeyring: bool, store: map<string, string>, fails: set<string>, c: Config,
                         envVars: map<string, string>, osEnv: map<string, string>,
                         dotEnv: map<string, string>): StatusRun
  {
    var hfRead := ReadKeyring(hasKeyring, store, fails, HuggingFaceKey);
    var afterHf := hasKeyring && !RaisedRead(hfRead);
    var openAiRead := OpenAiKeyringRead(afterHf, store, fails, osEnv, envVars);
    var afterOpenAi := afterHf && !RaisedRead(openAiRead);
    var found := OpenAiKeyLookup(osEnv, envVars, openAiRead, c, dotEnv);
    var osEnv' := OpenAiEnvAfter(osEnv, found);
    var neo4jReads := Neo4jReadsFor(osEnv', afterOpenAi, store, fails);
    StatusRun(
      StatusFrom(SecretChain(KeyringValue(hfRead), c, HuggingFaceKey, envVars, HuggingFaceKey),
                 found.key, Neo4jLookup(osEnv', neo4jReads, c, envVars, dotEnv), EnvValue(osEnv, "GITHUB_TOKEN")),
      osEnv',
      RaisedRead(hfRead) || RaisedRead(openAiRead) || AnyRaised(neo4jReads))
  }

  /** `StatusLookups` step by step, for the method that performs the steps. */
  lemma StatusLookupsUnfold(hasKeyring: bool, store: map<string, string>, fails: set<string>, c: Config,
                            envVars: map<string, string>, osEnv: map<string, string>, dotEnv: map<string, string>,
                            hfRead: Option<KeyringRead>, openAiRead: Option<KeyringRead>, found: OpenAiLookup,
                            osEnv': map<string, string>, neo4jReads: Neo4jReads)
    requires hfRead == ReadKeyring(hasKeyring, store, fails, HuggingFaceKey)
    requires openAiRead == OpenAiKeyringRead(hasKeyring && !RaisedRead(hfRead), store, fails, osEnv, envVars)
    requires found == OpenAiKeyLookup(osEnv, envVars, openAiRead, c, dotEnv)
    requires osEnv' == OpenAiEnvAfter(osEnv, found)
    requires neo4jReads == Neo4jReadsFor(osEnv', hasKeyring && !RaisedRead(hfRead) && !RaisedRead(openAiRead),
                                         store, fails)
    ensures StatusLookups(hasKeyring, store, fails, c, envVars, osEnv, dotEnv)
         == StatusRun(StatusFrom(SecretChain(KeyringValue(hfRead), c, HuggingFaceKey, envVars, HuggingFaceKey),
                                 found.key, Neo4jLookup(osEnv', neo4jReads, c, envVars, dotEnv),
                                 EnvValue(osEnv, "GITHUB_TOKEN")),
                      osEnv', RaisedRead(hfRead) || RaisedRead(openAiRead) || AnyRaised(neo4jReads))
  {
  }

  /**
   * What the status report promises whatever the keyring does: the Hugging
   * Face flag follows its chain, and a truthy process `OPENAI_API_KEY` or a
   * complete Neo4j trio in the process environment always counts as configured.
   */
  lemma StatusLookupsFlags(hasKeyring: bool, store: map<string, string>, fails: set<string>, c: Config,
                           envVars: map<string, string>, osEnv: map<string, string>, dotEnv: map<string, string>)
    ensures var run := StatusLookups(hasKeyring, store, fails, c, envVars, osEnv, dotEnv);
      && run.report.huggingfaceConfigured
         == Truthy(SecretChain(KeyringValue(ReadKeyring(hasKeyring, store, fails, HuggingFaceKey)),
                               c, HuggingFaceKey, envVars, HuggingFaceKey))
      && (Truthy(EnvValue(osEnv, "OPENAI_API_KEY")) ==> run.report.openaiConfigured && run.osEnv == osEnv)
      && (Neo4jFromOsEnv(osEnv).Some? ==> run.report.neo4jConfigured)
  {
    var hfRead := ReadKeyring(hasKeyring, store, fails, HuggingFaceKey);
    var openAiRead := OpenAiKeyringRead(hasKeyring && !RaisedRead(hfRead), store, fails, osEnv, envVars);
    var found := OpenAiKeyLookup(osEnv, envVars, openAiRead, c, dotEnv);
    if found.fromDotEnv {
      Neo4jEnvIgnoresOpenAiKey(osEnv, found.key.value.s);
    }
  }

  /**
   * Without the keyring the report depends on the files and the environment
   * alone, and the keyring stays unused.
   */
  lemma StatusLookupsWithoutKeyring(store: map<string, string>, fails: set<string>, c: Config,
                                    envVars: map<string, string>, osEnv: map<string, string>,
                                    dotEnv: map<string, string>)
    ensures var run := StatusLookups(false, store, fails, c, envVars, osEnv, dotEnv);
      && !run.raised
      && run.report == StatusFrom(SecretChain(Null, c, HuggingFaceKey, envVars, HuggingFaceKey),
                                  OpenAiKeyLookup(osEnv, envVars, None, c, dotEnv).key,
                                  Neo4jLookup(osEnv, NoNeo4jReads, c, envVars, dotEnv),
                                  EnvValue(osEnv, "GITHUB_TOKEN"))
  {
    var found := OpenAiKeyLookup(osEnv, envVars, None, c, dotEnv);
    if found.fromDotEnv {
      Neo4jEnvIgnoresOpenAiKey(osEnv, found.key.value.s);
    }
    assert !AnyRaised(NoNeo4jReads);
  }

  class ConfigurationHandler {
    const credentials: CredentialsManager
    /** The lines of `.env`, None when there is no such file. */
    var envFile: Option<seq<string>>
    /** The message of the error opening `.env` raises, if it does. */
    const envError: Option<string>

    constructor (credentials: CredentialsManager, envFile: Option<seq<string>>, envError: Option<string>)
      ensures this.credentials == credentials && this.envFile == envFile && this.envError == envError
    {
      this.credentials := credentials;
      this.envFile := envFile;
      this.envError := envError;
    }

    /** Performs one save call through the credentials manager. */
    method Save(call: SaveCall)
      modifies credentials`configFile, credentials`log, credentials`keyringStore
      ensures SaveState(credentials.configFile, credentials.keyringStore, credentials.log)
           == ApplySave(SaveState(old(credentials.configFile), old(credentials.keyringStore), old(credentials.log)),
                        credentials.hasKeyring, credentials.keyringRejects, credentials.configWritable, call)
    {
      match call {
        case SaveHuggingFace(u, t) =>
          var _ := credentials.SaveHuggingFaceCredentials(u, t);
        case SaveOpenAi(k) =>
          var _ := credentials.SaveOpenAiKey(k);
        case SaveNeo4j(uri, u, p) =>
          var _ := credentials.SaveNeo4jCredentials(uri, u, p);
      }
    }

    /** The save calls, one after the other. */
    method RunSaves(calls: seq<SaveCall>)
      modifies credentials`configFile, credentials`log, credentials`keyringStore
      ensures SaveState(credentials.configFile, credentials.keyringStore, credentials.log)
           == ApplySaves(SaveState(old(credentials.configFile), old(credentials.keyringStore), old(credentials.log)),
                         credentials.hasKeyring, credentials.keyringRejects, credentials.configWritable, calls)
    {
      ghost var st0 := SaveState(credentials.configFile, credentials.keyringStore, credentials.log);
      ghost var hk, rejects, writable := credentials.hasKeyring, credentials.keyringRejects, credentials.configWritable;
      var i := 0;
      while i < |calls|
        invariant 0 <= i <= |calls|
        invariant SaveState(credentials.configFile, credentials.keyringStore, credentials.log)
               == ApplySaves(st0, hk, rejects, writable, calls[..i])
      {
        ApplySavesSnoc(st0, hk, rejects, writable, calls, i);
        ghost var before := SaveState(credentials.configFile, credentials.keyringStore, credentials.log);
        Save(calls[i]);
        assert SaveState(credentials.configFile, credentials.keyringStore, credentials.log)
            == ApplySave(before, hk, rejects, writable, calls[i]);
        i := i + 1;
      }
      assert calls[..i] == calls;
    }

    /**
     * `update_configuration`: saves the Hugging Face token (as user
     * `homework_user`), the OpenAI key and the Neo4j trio when given, then
     * rewrites `GITHUB_TOKEN` in `.env` when a GitHub token is given. An
     * error on `.env` becomes HTTP 500 after the saves already made.
     */
    method UpdateConfiguration(m: ConfigurationModel) returns (r: UpdateResponse)
      modifies credentials`configFile, credentials`log, credentials`keyringStore, this`envFile
      ensures SaveState(credentials.configFile, credentials.keyringStore, credentials.log)
           == ApplySaves(SaveState(old(credentials.configFile), old(credentials.keyringStore), old(credentials.log)),
                         credentials.hasKeyring, credentials.keyringRejects, credentials.configWritable, SavesFor(m))
      ensures r.Updated? <==> m.githubToken == "" || envError.None?
      ensures r.HttpError? ==>
        r.statusCode == 500 && r.detail == "Failed to update configuration: " + envError.value
      ensures r.HttpError? || m.githubToken == "" ==> envFile == old(envFile)
      ensures r.Updated? && m.githubToken != "" ==>
        envFile == Some(Serialize(Put(ParseLines(old(envFile).GetOr([])), "GITHUB_TOKEN", m.githubToken)))
    {
      RunSaves(SavesFor(m));
      if m.githubToken != "" {
        if envError.Some? {
          return HttpError(500, "Failed to update configuration: " + envError.value);
        }
        var envContent: EnvDict := [];
        if envFile.Some? {
          envContent := ReadEnv(envFile.value);
        }
        envContent := Put(envContent, "GITHUB_TOKEN", m.githubToken);
        var lines := WriteEnv(envContent);
        envFile := Some(lines);
      }
      return Updated;
    }

    /**
     * `get_configuration_status`: runs the three lookups and reads
     * `GITHUB_TOKEN` from the process environment.
     */
    method GetConfigurationStatus() returns (r: ConfigurationStatus)
      modifies credentials`hasKeyring, credentials.status`hasKeyring, credentials`osEnv
      ensures var run := StatusLookups(old(credentials.hasKeyring), credentials.keyringStore,
                                       credentials.keyringReadFails, LoadConfig(credentials.configFile),
                                       credentials.envVars, old(credentials.osEnv), credentials.dotEnv);
        && r == run.report
        && credentials.osEnv == run.osEnv
        && credentials.hasKeyring == (old(credentials.hasKeyring) && !run.raised)
        && credentials.status.hasKeyring == (old(credentials.status.hasKeyring) && !run.raised)
      ensures r.missingConfigs == (if r.huggingfaceConfigured then [] else [HuggingFaceKey])
      ensures r.githubConfigured == Truthy(EnvValue(old(credentials.osEnv), "GITHUB_TOKEN"))
    {
      ghost var keyringBefore, osEnvBefore := credentials.hasKeyring, credentials.osEnv;
      ghost var statusBefore := credentials.status.hasKeyring;
      ghost var store, fails := credentials.keyringStore, credentials.keyringReadFails;
      ghost var file, envVars, dotEnv := credentials.configFile, credentials.envVars, credentials.dotEnv;
      ghost var c := LoadConfig(file);
      var githubToken := EnvValue(credentials.osEnv, "GITHUB_TOKEN");
      var _, hfToken := credentials.GetHuggingFaceCredentials();
      assert credentials.keyringStore == store && credentials.configFile == file && credentials.osEnv == osEnvBefore;
      ghost var hfRead := ReadKeyring(keyringBefore, store, fails, HuggingFaceKey);
      ghost var afterHf := credentials.hasKeyring;
      assert credentials.status.hasKeyring == (statusBefore && !RaisedRead(hfRead));
      var openAiKey := credentials.GetOpenAiKey();
      assert credentials.keyringStore == store && credentials.configFile == file;
      ghost var openAiRead := OpenAiKeyringRead(afterHf, store, fails, osEnvBefore, envVars);
      ghost var found := OpenAiKeyLookup(osEnvBefore, envVars, openAiRead, c, dotEnv);
      ghost var afterOpenAi := credentials.hasKeyring;
      assert afterOpenAi == (keyringBefore && !RaisedRead(hfRead) && !RaisedRead(openAiRead));
      assert credentials.status.hasKeyring == (statusBefore && !RaisedRead(hfRead) && !RaisedRead(openAiRead));
      assert openAiKey == found.key;
      ghost var osEnvAfter := OpenAiEnvAfter(osEnvBefore, found);
      assert credentials.osEnv == osEnvAfter;
      var neo4j := credentials.GetNeo4jCredentials();
      assert credentials.keyringStore == store && credentials.configFile == file && credentials.osEnv == osEnvAfter;
      ghost var neo4jReads := Neo4jReadsFor(osEnvAfter, afterOpenAi, store, fails);
      assert neo4j == Neo4jLookup(osEnvAfter, neo4jReads, c, envVars, dotEnv);
      assert credentials.hasKeyring == (afterOpenAi && !AnyRaised(neo4jReads));
      r := StatusFrom(hfToken, openAiKey, neo4j, githubToken);
      StatusLookupsUnfold(keyringBefore, store, fails, c, envVars, osEnvBefore, dotEnv,
                          hfRead, openAiRead, found, osEnvAfter, neo4jReads);
    }
  }

  lemma ApplySavesSnoc(st: SaveState, hasKeyring: bool, rejects: set<string>, writable: bool,
                       calls: seq<SaveCall>, i: nat)
    requires i < |calls|
    ensures ApplySaves(st, hasKeyring, rejects, writable, calls[..i + 1])
         == ApplySave(ApplySaves(st, hasKeyring, rejects, writable, calls[..i]), hasKeyring, rejects, writable, calls[i])
  {
    ApplySavesAppend(st, hasKeyring, rejects, writable, calls[..i], calls[i]);
    assert calls[..i + 1] == calls[..i] + [calls[i]];
  }

  lemma {:induction false} ApplySavesAppend(st: SaveState, hasKeyring: bool, rejects: set<string>, writable: bool,
                                            calls: seq<SaveCall>, last: SaveCall)
    ensures ApplySaves(st, hasKeyring, rejects, writable, calls + [last])
         == ApplySave(ApplySaves(st, hasKeyring, rejects, writable, calls), hasKeyring, rejects, writable, last)
    decreases |calls|
  {
    if calls == [] {
      assert calls + [last] == [last];
      assert [last][1..] == [];
    } else {
      var next := ApplySave(st, hasKeyring, rejects, writable, calls[0]);
      assert (calls + [last])[1..] == calls[1..] + [last];
      ApplySavesAppend(next, hasKeyring, rejects, writable, calls[1..], last);
    }
  }
}

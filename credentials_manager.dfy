/**
 * The backend's credential store (`CredentialsManager`): secrets go to the
 * system keyring when it is usable and to a JSON config file otherwise, and
 * lookups walk a fixed chain of places (process environment, the variables
 * loaded at start-up, keyring, config file, a direct scan of `.env`).
 *
 * The keyring, the config file and the environment are modelled as maps. A
 * keyring that raises is described by the keys whose `get_password` or
 * `set_password` raise; the regular-expression scan of `.env` is an input
 * giving, per variable name, the text captured after `NAME=`.
 */
module Credentials {
  import opened Wrappers
  import opened Text

  /** A value of the JSON config file, or Python's `None`. */
  datatype Value = Str(s: string) | Num(n: int) | Null

  /** Python truthiness of a config value. */
  predicate Truthy(v: Value) {
    match v
    case Str(s) => s != ""
    case Num(n) => n != 0
    case Null => false
  }

  type Config = map<string, Value>

  /** The config file on disk. */
  datatype ConfigFile = Missing | Unreadable | Json(contents: Config)

  const ServiceName := "othertales_homework"
  const HuggingFaceKey := "huggingface_token"
  const HuggingFaceUserKey := "huggingface_username"
  const OpenApiKey := "openapi_key"
  const OpenAiKey := "openai_key"
  const Neo4jUriKey := "neo4j_uri"
  const Neo4jUserKey := "neo4j_username"
  const Neo4jPasswordKey := "neo4j_password"
  const ServerPortKey := "server_port"
  const TempDirKey := "temp_dir"
  const DefaultServerPort := 8080
  const Mask := "*****"

  /** The keys `_save_config` masks before logging, in its order. */
  const SensitiveKeys: seq<string> :=
    ["huggingface_token", "openapi_key", "openai_key", "neo4j_password", "neo4j_uri", "neo4j_username"]

  /** `$HOME/.othertales_homework/temp`, the default temporary directory. */
  function DefaultTempDir(home: string): string {
    home + "/.othertales_homework/temp"
  }

  /** `config.get(key, default)`. */
  function Get(c: Config, key: string, default: Value): Value {
    if key in c then c[key] else default
  }

  /** The config `_ensure_config_file_exists` writes when there is no file. */
  function InitialConfig(home: string): (c: Config)
    ensures c.Keys == {HuggingFaceUserKey, ServerPortKey, TempDirKey}
    ensures c[ServerPortKey] == Num(DefaultServerPort) && c[HuggingFaceUserKey] == Str("")
  {
    assert |HuggingFaceUserKey| == 20 && |ServerPortKey| == 11 && |TempDirKey| == 8;
    map[HuggingFaceUserKey := Str(""), ServerPortKey := Num(DefaultServerPort),
        TempDirKey := Str(DefaultTempDir(home))]
  }

  // ---------------------------------------------------------------------------
  // Loading and saving the config file
  // ---------------------------------------------------------------------------

  /** `_load_config`: the file's object, or `{"huggingface_username": ""}`. */
  function LoadConfig(file: ConfigFile): (c: Config)
    ensures file.Json? ==> c == file.contents
    ensures !file.Json? ==> c == map[HuggingFaceUserKey := Str("")]
  {
    match file
    case Json(contents) => contents
    case _ => map[HuggingFaceUserKey := Str("")]
  }

  /** Masks, one after the other, those of `keys` that `c` holds. */
  function MaskKeys(c: Config, keys: seq<string>): (r: Config)
    decreases |keys|
  {
    if keys == [] then c
    else
      var next := if keys[0] in c then c[keys[0] := Str(Mask)] else c;
      MaskKeys(next, keys[1..])
  }

  /** Masking keeps the keys, masks exactly the listed ones and leaves the rest. */
  lemma {:induction false} MaskKeysMasks(c: Config, keys: seq<string>)
    ensures MaskKeys(c, keys).Keys == c.Keys
    ensures forall k :: k in c && k in keys ==> MaskKeys(c, keys)[k] == Str(Mask)
    ensures forall k :: k in c && k !in keys ==> MaskKeys(c, keys)[k] == c[k]
    decreases |keys|
  {
    if keys != [] {
      var next := if keys[0] in c then c[keys[0] := Str(Mask)] else c;
      MaskKeysMasks(next, keys[1..]);
      forall k | k in c && k in keys
        ensures MaskKeys(c, keys)[k] == Str(Mask)
      {
        if k != keys[0] {
          assert k in keys[1..] by {
            var j :| 0 <= j < |keys| && keys[j] == k;
            assert keys[1..][j - 1] == k;
          }
        }
      }
    }
  }

  /** The copy of a config that `_save_config` logs. */
  function Redact(c: Config): Config {
    MaskKeys(c, SensitiveKeys)
  }

  /**
   * The logged copy hides every credential (tokens, keys and all three Neo4j
   * settings) and shows everything else as it is.
   */
  lemma RedactHidesCredentials(c: Config)
    ensures Redact(c).Keys == c.Keys
    ensures forall k :: k in c && k in SensitiveKeys ==> Redact(c)[k] == Str(Mask)
    ensures forall k :: k in c && k !in SensitiveKeys ==> Redact(c)[k] == c[k]
    ensures ServerPortKey in c ==> Redact(c)[ServerPortKey] == c[ServerPortKey]
  {
    MaskKeysMasks(c, SensitiveKeys);
  }

  /** The loop of `_save_config` over the sensitive keys, on a copy. */
  method RedactForLog(config: Config) returns (safe: Config)
    ensures safe == Redact(config)
  {
    var keys := SensitiveKeys;
    safe := config;
    var i := 0;
    while i < |keys|
      invariant 0 <= i <= |keys|
      invariant MaskKeys(safe, keys[i..]) == Redact(config)
    {
      MaskKeysStep(safe, keys, i);
      if keys[i] in safe {
        safe := safe[keys[i] := Str(Mask)];
      }
      i := i + 1;
    }
    assert keys[i..] == [];
  }

  /** Masking the keys from `i` on is masking key `i` and then the rest. */
  lemma MaskKeysStep(c: Config, keys: seq<string>, i: nat)
    requires i < |keys|
    ensures MaskKeys(c, keys[i..]) == MaskKeys(if keys[i] in c then c[keys[i] := Str(Mask)] else c, keys[i + 1..])
  {
    assert keys[i..][1..] == keys[i + 1..];
  }

  // ---------------------------------------------------------------------------
  // Saving secrets
  // ---------------------------------------------------------------------------

  /**
   * `set_password` for each pair in turn, stopping at the first that raises.
   * Returns the keyring afterwards and whether every write went through.
   */
  function KeyringWrites(store: map<string, string>, rejects: set<string>,
                         pairs: seq<(string, string)>): (r: (map<string, string>, bool))
    ensures r.1 <==> forall i :: 0 <= i < |pairs| ==> pairs[i].0 !in rejects
    ensures r.1 ==> forall i :: 0 <= i < |pairs| ==> pairs[i].0 in r.0
    ensures forall k :: k in store ==> k in r.0
    decreases |pairs|
  {
    if pairs == [] then (store, true)
    else if pairs[0].0 in rejects then (store, false)
    else
      var rest := KeyringWrites(store[pairs[0].0 := pairs[0].1], rejects, pairs[1..]);
      assert forall i :: 1 <= i < |pairs| ==> pairs[i] == pairs[1..][i - 1];
      rest
  }

  /** `config[key] = value` for each pair in turn. */
  function ConfigWrites(c: Config, pairs: seq<(string, string)>): (r: Config)
    ensures r.Keys == c.Keys + set i | 0 <= i < |pairs| :: pairs[i].0
    decreases |pairs|
  {
    if pairs == [] then c else ConfigWrites(c[pairs[0].0 := Str(pairs[0].1)], pairs[1..])
  }

  /** Pairs whose keys are pairwise distinct. */
  predicate DistinctKeys(pairs: seq<(string, string)>) {
    forall i, j :: 0 <= i < j < |pairs| ==> pairs[i].0 != pairs[j].0
  }

  lemma {:induction false} ConfigWritesValues(c: Config, pairs: seq<(string, string)>)
    requires DistinctKeys(pairs)
    ensures forall i :: 0 <= i < |pairs| ==> ConfigWrites(c, pairs)[pairs[i].0] == Str(pairs[i].1)
    ensures forall k :: k in c && (forall i :: 0 <= i < |pairs| ==> pairs[i].0 != k) ==>
      ConfigWrites(c, pairs)[k] == c[k]
    decreases |pairs|
  {
    if pairs != [] {
      ConfigWritesValues(c[pairs[0].0 := Str(pairs[0].1)], pairs[1..]);
      assert forall i :: 1 <= i < |pairs| ==> pairs[i] == pairs[1..][i - 1];
      forall i | 0 <= i < |pairs|
        ensures ConfigWrites(c, pairs)[pairs[i].0] == Str(pairs[i].1)
      {
        if i > 0 {
          assert pairs[i] == pairs[1..][i - 1];
        } else {
          assert forall j :: 0 <= j < |pairs[1..]| ==> pairs[1..][j].0 != pairs[0].0;
        }
      }
    }
  }

  lemma {:induction false} KeyringWritesValues(store: map<string, string>, rejects: set<string>,
                                               pairs: seq<(string, string)>)
    requires DistinctKeys(pairs)
    ensures var r := KeyringWrites(store, rejects, pairs);
      r.1 ==> forall i :: 0 <= i < |pairs| ==> r.0[pairs[i].0] == pairs[i].1
    decreases |pairs|
  {
    if pairs != [] && pairs[0].0 !in rejects {
      var next := store[pairs[0].0 := pairs[0].1];
      KeyringWritesValues(next, rejects, pairs[1..]);
      var r := KeyringWrites(store, rejects, pairs);
      if r.1 {
        forall i | 0 <= i < |pairs|
          ensures r.0[pairs[i].0] == pairs[i].1
        {
          if i > 0 {
            assert pairs[i] == pairs[1..][i - 1];
          } else {
            KeyringWritesKeep(next, rejects, pairs[1..], pairs[0].0);
          }
        }
      }
    }
  }

  /** Writes of other keys leave an entry of the keyring as it was. */
  lemma {:induction false} KeyringWritesKeep(store: map<string, string>, rejects: set<string>,
                                             pairs: seq<(string, string)>, k: string)
    requires k in store
    requires forall i :: 0 <= i < |pairs| ==> pairs[i].0 != k
    ensures KeyringWrites(store, rejects, pairs).0[k] == store[k]
    decreases |pairs|
  {
    if pairs != [] && pairs[0].0 !in rejects {
      assert forall i :: 0 <= i < |pairs[1..]| ==> pairs[1..][i] == pairs[i + 1];
      KeyringWritesKeep(store[pairs[0].0 := pairs[0].1], rejects, pairs[1..], k);
    }
  }

  /**
   * Where a `save_*` method puts its secrets: into the keyring while it is
   * usable and accepts every write, otherwise all of them into the config.
   * Returns the config to write and the keyring afterwards.
   */
  function SaveSecrets(c: Config, store: map<string, string>, hasKeyring: bool,
                       rejects: set<string>, pairs: seq<(string, string)>): (Config, map<string, string>)
  {
    if hasKeyring then
      var (store', ok) := KeyringWrites(store, rejects, pairs);
      if ok then (c, store') else (ConfigWrites(c, pairs), store')
    else (ConfigWrites(c, pairs), store)
  }

  /**
   * Every secret saved can be found afterwards in the keyring or the config;
   * the config receives either none of them (every keyring write went
   * through) or all of them together.
   */
  lemma SecretsLandSomewhere(c: Config, store: map<string, string>, hasKeyring: bool,
                             rejects: set<string>, pairs: seq<(string, string)>)
    requires DistinctKeys(pairs)
    ensures var (c', store') := SaveSecrets(c, store, hasKeyring, rejects, pairs);
      && (forall i :: 0 <= i < |pairs| ==>
            (pairs[i].0 in store' && store'[pairs[i].0] == pairs[i].1)
            || (pairs[i].0 in c' && c'[pairs[i].0] == Str(pairs[i].1)))
      && (c' == c || forall i :: 0 <= i < |pairs| ==> pairs[i].0 in c' && c'[pairs[i].0] == Str(pairs[i].1))
    ensures !hasKeyring ==> SaveSecrets(c, store, hasKeyring, rejects, pairs).1 == store
  {
    ConfigWritesValues(c, pairs);
    KeyringWritesValues(store, rejects, pairs);
  }

  // ---------------------------------------------------------------------------
  // Looking secrets up
  // ---------------------------------------------------------------------------

  /** The outcome of `keyring.get_password`. */
  datatype KeyringRead = Raised | Got(v: Value)

  /** One `get_password`, or nothing when the keyring is not in use. */
  function ReadKeyring(hasKeyring: bool, store: map<string, string>, readFails: set<string>,
                       key: string): (r: Option<KeyringRead>)
    ensures r.None? <==> !hasKeyring
    ensures r == Some(Raised) <==> hasKeyring && key in readFails
  {
    if !hasKeyring then None
    else if key in readFails then Some(Raised)
    else Some(Got(if key in store then Str(store[key]) else Null))
  }

  /** The keyring's contribution to a chain: a raise leaves the variable `None`. */
  function KeyringValue(r: Option<KeyringRead>): Value {
    match r
    case Some(Got(v)) => v
    case _ => Null
  }

  /** Whether a keyring read raised, so that the latch falls. */
  predicate RaisedRead(r: Option<KeyringRead>) {
    r == Some(Raised)
  }

  /**
   * The chain of `get_huggingface_credentials` and `get_openapi_key`: the
   * keyring value, replaced by the config entry when falsy and the entry is
   * present, replaced in turn by the loaded environment value when still
   * falsy and that value is truthy.
   */
  function SecretChain(fromKeyring: Value, c: Config, configKey: string,
                       envVars: map<string, string>, envKey: string): Value
  {
    var t := if !Truthy(fromKeyring) && configKey in c then c[configKey] else fromKeyring;
    if !Truthy(t) && envKey in envVars && envVars[envKey] != "" then Str(envVars[envKey]) else t
  }

  /** The first truthy value of a list of candidates. */
  function FirstTruthy(candidates: seq<Value>): (r: Option<Value>)
    ensures r.Some? ==> Truthy(r.value)
    ensures r.None? <==> NoneTruthy(candidates)
    decreases |candidates|
  {
    if candidates == [] then None
    else if Truthy(candidates[0]) then Some(candidates[0])
    else
      var rest := FirstTruthy(candidates[1..]);
      assert forall i :: 1 <= i < |candidates| ==> candidates[i] == candidates[1..][i - 1];
      rest
  }

  predicate NoneTruthy(candidates: seq<Value>) {
    forall i :: 0 <= i < |candidates| ==> !Truthy(candidates[i])
  }

  lemma FirstTruthyCons(head: Value, tail: seq<Value>)
    ensures FirstTruthy([head] + tail) == if Truthy(head) then Some(head) else FirstTruthy(tail)
  {
    assert ([head] + tail)[1..] == tail;
  }

  /** The places a secret chain consults, in order. */
  function ChainCandidates(fromKeyring: Value, c: Config, configKey: string,
                           envVars: map<string, string>, envKey: string): seq<Value>
  {
    [fromKeyring]
      + (if configKey in c then [c[configKey]] else [])
      + (if envKey in envVars then [Str(envVars[envKey])] else [])
  }

  /**
   * A secret chain yields a truthy value exactly when one of the places
   * holds one, and then the value of the first such place.
   */
  lemma SecretChainIsFirstTruthy(fromKeyring: Value, c: Config, configKey: string,
                                 envVars: map<string, string>, envKey: string)
    ensures var r := SecretChain(fromKeyring, c, configKey, envVars, envKey);
      var first := FirstTruthy(ChainCandidates(fromKeyring, c, configKey, envVars, envKey));
      (Truthy(r) <==> first.Some?) && (first.Some? ==> r == first.value)
  {
    var fromConfig := if configKey in c then [c[configKey]] else [];
    var fromEnv := if envKey in envVars then [Str(envVars[envKey])] else [];
    assert ChainCandidates(fromKeyring, c, configKey, envVars, envKey) == [fromKeyring] + (fromConfig + fromEnv);
    FirstTruthyCons(fromKeyring, fromConfig + fromEnv);
    if configKey in c {
      FirstTruthyCons(c[configKey], fromEnv);
    }
    if envKey in envVars {
      FirstTruthyCons(Str(envVars[envKey]), []);
    }
  }

  /** The three Neo4j settings a lookup returns. */
  datatype Neo4jCredentials = Neo4jCredentials(uri: Value, username: Value, password: Value)

  predicate Complete(cr: Neo4jCredentials) {
    Truthy(cr.uri) && Truthy(cr.username) && Truthy(cr.password)
  }

  /** A source is accepted only when it supplies all three settings. */
  function AllThree(uri: Value, username: Value, password: Value): (r: Option<Neo4jCredentials>)
    ensures r.Some? <==> Truthy(uri) && Truthy(username) && Truthy(password)
    ensures r.Some? ==> r.value == Neo4jCredentials(uri, username, password)
  {
    if Truthy(uri) && Truthy(username) && Truthy(password) then
      Some(Neo4jCredentials(uri, username, password))
    else None
  }

  /** `env.get(name)` as a value (`None` when absent). */
  function EnvValue(env: map<string, string>, name: string): Value {
    if name in env then Str(env[name]) else Null
  }

  /** Python's `a or b`. */
  function Or(a: Value, b: Value): Value {
    if Truthy(a) then a else b
  }

  function Neo4jFromOsEnv(osEnv: map<string, string>): Option<Neo4jCredentials> {
    AllThree(EnvValue(osEnv, "NEO4J_URI"), EnvValue(osEnv, "NEO4J_USER"), EnvValue(osEnv, "NEO4J_PASSWORD"))
  }

  /** Setting `OPENAI_API_KEY` in the process environment does not change the Neo4j variables. */
  lemma Neo4jEnvIgnoresOpenAiKey(osEnv: map<string, string>, key: string)
    ensures Neo4jFromOsEnv(osEnv["OPENAI_API_KEY" := key]) == Neo4jFromOsEnv(osEnv)
  {
    var osEnv' := osEnv["OPENAI_API_KEY" := key];
    assert "NEO4J_URI"[0] != "OPENAI_API_KEY"[0];
    assert "NEO4J_USER"[0] != "OPENAI_API_KEY"[0];
    assert "NEO4J_PASSWORD"[0] != "OPENAI_API_KEY"[0];
    assert EnvValue(osEnv', "NEO4J_URI") == EnvValue(osEnv, "NEO4J_URI");
    assert EnvValue(osEnv', "NEO4J_USER") == EnvValue(osEnv, "NEO4J_USER");
    assert EnvValue(osEnv', "NEO4J_PASSWORD") == EnvValue(osEnv, "NEO4J_PASSWORD");
  }

  function Neo4jFromConfig(c: Config): Option<Neo4jCredentials> {
    if Neo4jUriKey in c && Neo4jUserKey in c && Neo4jPasswordKey in c then
      AllThree(c[Neo4jUriKey], c[Neo4jUserKey], c[Neo4jPasswordKey])
    else None
  }

  /** The loaded-variables step of `get_neo4j_credentials`. */
  function Neo4jFromEnvVars(envVars: map<string, string>): Option<Neo4jCredentials> {
    AllThree(
      Or(EnvValue(envVars, "neo4j_uri"), EnvValue(envVars, "NEO4J_URI")),
      Or(EnvValue(envVars, "neo4j_username"), EnvValue(envVars, "NEO4J_USER")),
      Or(EnvValue(envVars, "neo4j_password"), EnvValue(envVars, "NEO4J_PASSWORD")))
  }

  /** The direct `.env` scan: each captured text, stripped, must be non-empty. */
  function Neo4jFromDotEnv(dotEnv: map<string, string>): Option<Neo4jCredentials> {
    if "NEO4J_URI" in dotEnv && "NEO4J_USER" in dotEnv && "NEO4J_PASSWORD" in dotEnv then
      AllThree(Str(Strip(dotEnv["NEO4J_URI"])), Str(Strip(dotEnv["NEO4J_USER"])),
               Str(Strip(dotEnv["NEO4J_PASSWORD"])))
    else None
  }

  /** The keys `load_environment_variables` returns, and no others. */
  predicate LoaderShaped(envVars: map<string, string>) {
    envVars.Keys == {"github_token", "github_username", "huggingface_token", "huggingface_username",
                     "openai_api_key", "neo4j_uri", "neo4j_user", "neo4j_password"}
  }

  /**
   * The loaded-variables step asks for `neo4j_username` or `NEO4J_USER`,
   * which the loader never produces (it produces `neo4j_user`), so with
   * the loader's variables that step never supplies credentials.
   */
  lemma EnvVarsNeverSupplyNeo4j(envVars: map<string, string>)
    requires LoaderShaped(envVars)
    ensures Neo4jFromEnvVars(envVars).None?
  {
    assert "neo4j_username" !in envVars && "NEO4J_USER" !in envVars;
  }

  /** Likewise `get_openapi_key` asks the loaded variables for `openapi_key`, which is never there. */
  lemma EnvVarsNeverSupplyOpenApi(fromKeyring: Value, c: Config, envVars: map<string, string>)
    requires LoaderShaped(envVars)
    ensures SecretChain(fromKeyring, c, OpenApiKey, envVars, OpenApiKey)
         == (if !Truthy(fromKeyring) && OpenApiKey in c then c[OpenApiKey] else fromKeyring)
  {
    assert OpenApiKey !in envVars;
  }

  /**
   * `get_neo4j_credentials`, given the outcome of the three keyring reads:
   * the first source that supplies all three settings wins.
   */
  function Neo4jLookup(osEnv: map<string, string>, outcomes: Neo4jReads, c: Config,
                       envVars: map<string, string>, dotEnv: map<string, string>): (r: Option<Neo4jCredentials>)
    ensures r.Some? ==> Complete(r.value)
    ensures r.None? ==>
      Neo4jFromOsEnv(osEnv).None? && Neo4jFromConfig(c).None?
      && Neo4jFromEnvVars(envVars).None? && Neo4jFromDotEnv(dotEnv).None?
  {
    var fromOs := Neo4jFromOsEnv(osEnv);
    if fromOs.Some? then fromOs
    else
      var fromKeyring := Neo4jFromKeyring(outcomes);
      if fromKeyring.Some? then fromKeyring
      else
        var fromConfig := Neo4jFromConfig(c);
        if fromConfig.Some? then fromConfig
        else
          var fromEnvVars := Neo4jFromEnvVars(envVars);
          if fromEnvVars.Some? then fromEnvVars
          else Neo4jFromDotEnv(dotEnv)
  }

  /**
   * The keyring step: a raise on any of the three reads falls through to
   * the next source.
   */
  function Neo4jFromKeyring(outcomes: Neo4jReads): (r: Option<Neo4jCredentials>)
    ensures r.Some? ==> outcomes.uri.Some? && outcomes.username.Some? && outcomes.password.Some?
    ensures r.Some? ==> !AnyRaised(outcomes)
  {
    if AnyRaised(outcomes) then None
    else AllThree(KeyringValue(outcomes.uri), KeyringValue(outcomes.username), KeyringValue(outcomes.password))
  }

  /** The outcomes of the three Neo4j keyring reads; `None` for a read that did not happen. */
  datatype Neo4jReads = Neo4jReads(uri: Option<KeyringRead>, username: Option<KeyringRead>,
                                   password: Option<KeyringRead>)

  /** No keyring read happened. */
  const NoNeo4jReads := Neo4jReads(None, None, None)

  /**
   * The keyring reads of `get_neo4j_credentials`, in the order uri, username,
   * password, when the keyring is in use; the first raise ends the `try`, so
   * the later reads do not happen.
   */
  function Neo4jKeyringReads(hasKeyring: bool, store: map<string, string>,
                             readFails: set<string>): (r: Neo4jReads)
    ensures RaisedRead(r.uri) ==> r.username.None? && r.password.None?
    ensures RaisedRead(r.username) ==> r.password.None?
    ensures !hasKeyring ==> r == NoNeo4jReads
    ensures hasKeyring ==> r.uri.Some?
  {
    if !hasKeyring then NoNeo4jReads
    else
      var uri := ReadKeyring(true, store, readFails, Neo4jUriKey);
      if RaisedRead(uri) then Neo4jReads(uri, None, None)
      else
        var user := ReadKeyring(true, store, readFails, Neo4jUserKey);
        if RaisedRead(user) then Neo4jReads(uri, user, None)
        else Neo4jReads(uri, user, ReadKeyring(true, store, readFails, Neo4jPasswordKey))
  }

  /** The keyring reads `get_neo4j_credentials` makes: none when the process environment supplies all three. */
  function Neo4jReadsFor(osEnv: map<string, string>, hasKeyring: bool, store: map<string, string>,
                         readFails: set<string>): Neo4jReads
  {
    if Neo4jFromOsEnv(osEnv).Some? then NoNeo4jReads else Neo4jKeyringReads(hasKeyring, store, readFails)
  }

  /** Whether one of the three Neo4j keyring reads raised. */
  predicate AnyRaised(outcomes: Neo4jReads) {
    RaisedRead(outcomes.uri) || RaisedRead(outcomes.username) || RaisedRead(outcomes.password)
  }

  /** The first source that supplies all three, in the lookup's order. */
  function FirstSome(sources: seq<Option<Neo4jCredentials>>): Option<Neo4jCredentials>
    decreases |sources|
  {
    if sources == [] then None else if sources[0].Some? then sources[0] else FirstSome(sources[1..])
  }

  /**
   * The order of `get_neo4j_credentials`: process environment, keyring (only
   * when all three reads went through), config file, loaded variables, `.env`.
   */
  lemma Neo4jPrecedence(osEnv: map<string, string>, outcomes: Neo4jReads, c: Config,
                        envVars: map<string, string>, dotEnv: map<string, string>)
    ensures Neo4jLookup(osEnv, outcomes, c, envVars, dotEnv)
         == FirstSome([Neo4jFromOsEnv(osEnv), Neo4jFromKeyring(outcomes), Neo4jFromConfig(c),
                       Neo4jFromEnvVars(envVars), Neo4jFromDotEnv(dotEnv)])
  {
    FirstSomeOfFive(Neo4jFromOsEnv(osEnv), Neo4jFromKeyring(outcomes), Neo4jFromConfig(c),
                    Neo4jFromEnvVars(envVars), Neo4jFromDotEnv(dotEnv));
  }

  lemma FirstSomeOfFive(a: Option<Neo4jCredentials>, b: Option<Neo4jCredentials>, c: Option<Neo4jCredentials>,
                        d: Option<Neo4jCredentials>, e: Option<Neo4jCredentials>)
    ensures FirstSome([a, b, c, d, e])
         == if a.Some? then a else if b.Some? then b else if c.Some? then c else if d.Some? then d else e
  {
    FirstSomeCons(e, []);
    FirstSomeCons(d, [e]);
    FirstSomeCons(c, [d, e]);
    FirstSomeCons(b, [c, d, e]);
    FirstSomeCons(a, [b, c, d, e]);
    assert [a, b, c, d, e] == [a] + [b, c, d, e];
    assert [b, c, d, e] == [b] + [c, d, e];
    assert [c, d, e] == [c] + [d, e];
    assert [d, e] == [d] + [e];
  }

  lemma FirstSomeCons(head: Option<Neo4jCredentials>, tail: seq<Option<Neo4jCredentials>>)
    ensures FirstSome([head] + tail) == if head.Some? then head else FirstSome(tail)
  {
    assert ([head] + tail)[1..] == tail;
  }

  /** The outcome of `get_openai_key`: the key, and whether `.env` supplied it. */
  datatype OpenAiLookup = OpenAiLookup(key: Option<Value>, fromDotEnv: bool)

  /**
   * `get_openai_key`: process `OPENAI_API_KEY`, loaded `openai_api_key`,
   * keyring, config file, then the stripped text after `OPENAI_API_KEY=` in
   * `.env`; the first truthy one is returned.
   */
  function OpenAiKeyLookup(osEnv: map<string, string>, envVars: map<string, string>,
                           read: Option<KeyringRead>, c: Config, dotEnv: map<string, string>): (r: OpenAiLookup)
    ensures r.key.Some? ==> Truthy(r.key.value)
    ensures r.fromDotEnv ==> r.key.Some? && r.key.value.Str?
    ensures r.fromDotEnv <==>
      && !Truthy(EnvValue(osEnv, "OPENAI_API_KEY")) && !Truthy(EnvValue(envVars, "openai_api_key"))
      && !Truthy(KeyringValue(read)) && !(OpenAiKey in c && Truthy(c[OpenAiKey]))
      && "OPENAI_API_KEY" in dotEnv && Strip(dotEnv["OPENAI_API_KEY"]) != ""
  {
    if Truthy(EnvValue(osEnv, "OPENAI_API_KEY")) then OpenAiLookup(Some(EnvValue(osEnv, "OPENAI_API_KEY")), false)
    else if Truthy(EnvValue(envVars, "openai_api_key")) then
      OpenAiLookup(Some(EnvValue(envVars, "openai_api_key")), false)
    else if Truthy(KeyringValue(read)) then OpenAiLookup(Some(KeyringValue(read)), false)
    else if OpenAiKey in c && Truthy(c[OpenAiKey]) then OpenAiLookup(Some(c[OpenAiKey]), false)
    else if "OPENAI_API_KEY" in dotEnv && Strip(dotEnv["OPENAI_API_KEY"]) != "" then
      OpenAiLookup(Some(Str(Strip(dotEnv["OPENAI_API_KEY"]))), true)
    else OpenAiLookup(None, false)
  }

  /**
   * The keyring read of `get_openai_key`, which happens only when neither the
   * process environment nor the loaded variables hold a truthy key.
   */
  function OpenAiKeyringRead(hasKeyring: bool, store: map<string, string>, readFails: set<string>,
                             osEnv: map<string, string>, envVars: map<string, string>): Option<KeyringRead>
  {
    if !Truthy(EnvValue(osEnv, "OPENAI_API_KEY")) && !Truthy(EnvValue(envVars, "openai_api_key"))
    then ReadKeyring(hasKeyring, store, readFails, OpenAiKey)
    else None
  }

  /** The process environment after `get_openai_key`: a key from `.env` is exported. */
  function OpenAiEnvAfter(osEnv: map<string, string>, found: OpenAiLookup): map<string, string>
    requires found.fromDotEnv ==> found.key.Some? && found.key.value.Str?
  {
    if found.fromDotEnv then osEnv["OPENAI_API_KEY" := found.key.value.s] else osEnv
  }

  /** The OpenAI lookup is the first truthy of its five places, in order. */
  lemma OpenAiKeyPrecedence(osEnv: map<string, string>, envVars: map<string, string>,
                            read: Option<KeyringRead>, c: Config, dotEnv: map<string, string>)
    ensures OpenAiKeyLookup(osEnv, envVars, read, c, dotEnv).key
      == FirstTruthy([EnvValue(osEnv, "OPENAI_API_KEY"), EnvValue(envVars, "openai_api_key"),
                      KeyringValue(read), if OpenAiKey in c then c[OpenAiKey] else Null,
                      if "OPENAI_API_KEY" in dotEnv then Str(Strip(dotEnv["OPENAI_API_KEY"])) else Null])
  {
    var fromConfig := if OpenAiKey in c then c[OpenAiKey] else Null;
    var fromDotEnv := if "OPENAI_API_KEY" in dotEnv then Str(Strip(dotEnv["OPENAI_API_KEY"])) else Null;
    FirstTruthyOfFive(EnvValue(osEnv, "OPENAI_API_KEY"), EnvValue(envVars, "openai_api_key"), KeyringValue(read),
                      fromConfig, fromDotEnv);
  }

  lemma FirstTruthyOfFive(a: Value, b: Value, c: Value, d: Value, e: Value)
    ensures FirstTruthy([a, b, c, d, e])
      == if Truthy(a) then Some(a) else if Truthy(b) then Some(b) else if Truthy(c) then Some(c)
         else if Truthy(d) then Some(d) else if Truthy(e) then Some(e) else None
  {
    FirstTruthyCons(e, []);
    FirstTruthyCons(d, [e]);
    FirstTruthyCons(c, [d, e]);
    FirstTruthyCons(b, [c, d, e]);
    FirstTruthyCons(a, [b, c, d, e]);
    assert [a, b, c, d, e] == [a] + [b, c, d, e];
    assert [b, c, d, e] == [b] + [c, d, e];
    assert [c, d, e] == [c] + [d, e];
    assert [d, e] == [d] + [e];
  }

  /**
   * `_extract_usernames_from_env`: with a loaded Hugging Face token and no
   * username in the config, the loaded username (when truthy) is written.
   * None means the config is left alone.
   */
  function ExtractedUsername(c: Config, envVars: map<string, string>): (r: Option<Config>)
    ensures r.Some? <==>
      (&& Truthy(EnvValue(envVars, HuggingFaceKey))
       && !(HuggingFaceUserKey in c && Truthy(c[HuggingFaceUserKey]))
       && Truthy(EnvValue(envVars, HuggingFaceUserKey)))
    ensures r.Some? ==>
      (&& HuggingFaceUserKey in r.value && r.value[HuggingFaceUserKey] == EnvValue(envVars, HuggingFaceUserKey)
       && r.value.Keys == c.Keys + {HuggingFaceUserKey}
       && forall k :: k in c && k != HuggingFaceUserKey ==> r.value[k] == c[k])
  {
    if Truthy(EnvValue(envVars, HuggingFaceKey)) && !(HuggingFaceUserKey in c && Truthy(c[HuggingFaceUserKey]))
       && HuggingFaceUserKey in envVars && envVars[HuggingFaceUserKey] != "" then
      Some(c[HuggingFaceUserKey := Str(envVars[HuggingFaceUserKey])])
    else None
  }

  /** The file after `_save_config(c)`: failures to write are logged and swallowed. */
  function AfterSave(file: ConfigFile, c: Config, writable: bool): ConfigFile {
    if writable then Json(c) else file
  }

  /** What `_ensure_config_file_exists` leaves on disk. */
  function EnsureExists(file: ConfigFile, home: string, writable: bool): (r: ConfigFile)
    ensures file != Missing ==> r == file
    ensures file == Missing && writable ==> r == Json(InitialConfig(home))
  {
    if file == Missing && writable then Json(InitialConfig(home)) else file
  }

  // ---------------------------------------------------------------------------
  // Module-level keyring status
  // ---------------------------------------------------------------------------

  /** The globals `HAS_KEYRING` and `KEYRING_CHECKED`. */
  class KeyringStatus {
    var hasKeyring: bool
    var checked: bool

    constructor ()
      ensures !hasKeyring && !checked
    {
      hasKeyring := false;
      checked := false;
    }

    /**
     * `check_keyring()`: the first call probes (`usable` says whether the
     * keyring or its plaintext fallback works) and records the answer;
     * later calls return the recorded answer without probing.
     */
    method CheckKeyring(usable: bool) returns (r: bool)
      modifies this
      ensures checked
      ensures old(checked) ==> hasKeyring == old(hasKeyring)
      ensures !old(checked) ==> hasKeyring == (old(hasKeyring) || usable)
      ensures r == hasKeyring
    {
      if checked {
        return hasKeyring;
      }
      if usable {
        hasKeyring := true;
      }
      checked := true;
      return hasKeyring;
    }
  }

  // ---------------------------------------------------------------------------
  // The manager
  // ---------------------------------------------------------------------------

  class CredentialsManager {
    /** The module globals, shared by every manager. */
    const status: KeyringStatus
    /** `self.has_keyring`. */
    var hasKeyring: bool
    /** The keyring entries under the service name. */
    var keyringStore: map<string, string>
    /** Keys whose `get_password` raises. */
    const keyringReadFails: set<string>
    /** Keys whose `set_password` raises. */
    const keyringRejects: set<string>
    var configFile: ConfigFile
    /** Whether writing the config file succeeds. */
    const configWritable: bool
    /** The variables loaded at start-up. */
    const envVars: map<string, string>
    /** `os.environ` */
    var osEnv: map<string, string>
    /** For each variable name, what `NAME=(.+)` captures in `.env` (empty when there is none). */
    const dotEnv: map<string, string>
    const defaultTempDir: string
    /** Each redacted config written to the debug log. */
    var log: seq<Config>

    /**
     * `__init__`: writes the default config when there is no file, copies a
     * loaded Hugging Face username into the config, and checks the keyring.
     */
    constructor (status: KeyringStatus, keyringUsable: bool, keyringStore: map<string, string>,
                 keyringReadFails: set<string>, keyringRejects: set<string>,
                 configFile: ConfigFile, configWritable: bool, envVars: map<string, string>,
                 osEnv: map<string, string>, dotEnv: map<string, string>, home: string)
      modifies status
      ensures this.status == status
      ensures status.checked
      ensures !old(status.checked) ==> status.hasKeyring == (old(status.hasKeyring) || keyringUsable)
      ensures old(status.checked) ==> status.hasKeyring == old(status.hasKeyring)
      ensures hasKeyring == status.hasKeyring
      ensures var ensured := EnsureExists(configFile, home, configWritable);
        var extracted := ExtractedUsername(LoadConfig(ensured), envVars);
        && this.configFile == (if extracted.Some? then AfterSave(ensured, extracted.value, configWritable) else ensured)
        && log == (if extracted.Some? then [Redact(extracted.value)] else [])
      ensures this.keyringStore == keyringStore && this.envVars == envVars && this.osEnv == osEnv
      ensures this.dotEnv == dotEnv && this.defaultTempDir == DefaultTempDir(home)
      ensures this.keyringReadFails == keyringReadFails && this.keyringRejects == keyringRejects
      ensures this.configWritable == configWritable
    {
      this.status := status;
      this.keyringStore := keyringStore;
      this.keyringReadFails := keyringReadFails;
      this.keyringRejects := keyringRejects;
      this.configWritable := configWritable;
      this.envVars := envVars;
      this.osEnv := osEnv;
      this.dotEnv := dotEnv;
      this.defaultTempDir := DefaultTempDir(home);
      var file := EnsureExists(configFile, home, configWritable);
      var logged: seq<Config> := [];
      var extracted := ExtractedUsername(LoadConfig(file), envVars);
      if extracted.Some? {
        var safe := RedactForLog(extracted.value);
        logged := [safe];
        file := AfterSave(file, extracted.value, configWritable);
      }
      this.configFile := file;
      this.log := logged;
      new;
      var available := status.CheckKeyring(keyringUsable);
      hasKeyring := available;
    }

    /** `_save_config`: logs the redacted copy, then writes the config itself. */
    method SaveConfig(c: Config)
      modifies this`configFile, this`log
      ensures configFile == AfterSave(old(configFile), c, configWritable)
      ensures log == old(log) + [Redact(c)]
    {
      var safe := RedactForLog(c);
      log := log + [safe];
      if configWritable {
        configFile := Json(c);
      }
    }

    /** Drops the keyring for the rest of the session after a read raised. */
    method Latch()
      modifies this`hasKeyring, status`hasKeyring
      ensures !hasKeyring && !status.hasKeyring
    {
      status.hasKeyring := false;
      hasKeyring := false;
    }

    /** Saves secrets as every `save_*` method does, on top of `c`. */
    method StoreSecrets(c: Config, pairs: seq<(string, string)>)
      modifies this`configFile, this`log, this`keyringStore
      ensures var (c', store') := SaveSecrets(c, old(keyringStore), hasKeyring, keyringRejects, pairs);
        && keyringStore == store'
        && configFile == AfterSave(old(configFile), c', configWritable)
        && log == old(log) + [Redact(c')]
    {
      var config := c;
      if hasKeyring {
        var (store', ok) := KeyringWrites(keyringStore, keyringRejects, pairs);
        keyringStore := store';
        if !ok {
          config := ConfigWrites(config, pairs);
        }
      } else {
        config := ConfigWrites(config, pairs);
      }
      SaveConfig(config);
    }

    /** `save_huggingface_credentials`: the username always goes to the config. */
    method SaveHuggingFaceCredentials(username: string, token: string) returns (ok: bool)
      modifies this`configFile, this`log, this`keyringStore
      ensures ok
      ensures var (c', store') := SaveSecrets(LoadConfig(old(configFile))[HuggingFaceUserKey := Str(username)],
                                              old(keyringStore), hasKeyring, keyringRejects, [(HuggingFaceKey, token)]);
        keyringStore == store' && configFile == AfterSave(old(configFile), c', configWritable)
        && log == old(log) + [Redact(c')]
    {
      var config := LoadConfig(configFile)[HuggingFaceUserKey := Str(username)];
      StoreSecrets(config, [(HuggingFaceKey, token)]);
      return true;
    }

    /** `save_openapi_key`. */
    method SaveOpenApiKey(key: string) returns (ok: bool)
      modifies this`configFile, this`log, this`keyringStore
      ensures ok
      ensures var (c', store') := SaveSecrets(LoadConfig(old(configFile)), old(keyringStore), hasKeyring,
                                              keyringRejects, [(OpenApiKey, key)]);
        keyringStore == store' && configFile == AfterSave(old(configFile), c', configWritable)
        && log == old(log) + [Redact(c')]
    {
      StoreSecrets(LoadConfig(configFile), [(OpenApiKey, key)]);
      return true;
    }

    /** `save_openai_key`. */
    method SaveOpenAiKey(key: string) returns (ok: bool)
      modifies this`configFile, this`log, this`keyringStore
      ensures ok
      ensures var (c', store') := SaveSecrets(LoadConfig(old(configFile)), old(keyringStore), hasKeyring,
                                              keyringRejects, [(OpenAiKey, key)]);
        keyringStore == store' && configFile == AfterSave(old(configFile), c', configWritable)
        && log == old(log) + [Redact(c')]
    {
      StoreSecrets(LoadConfig(configFile), [(OpenAiKey, key)]);
      return true;
    }

    /**
     * `save_neo4j_credentials`: the three settings go to the keyring one by
     * one; if a write raises, all three go to the config together.
     */
    method SaveNeo4jCredentials(uri: string, username: string, password: string) returns (ok: bool)
      modifies this`configFile, this`log, this`keyringStore
      ensures ok
      ensures var (c', store') := SaveSecrets(LoadConfig(old(configFile)), old(keyringStore), hasKeyring,
          keyringRejects, [(Neo4jUriKey, uri), (Neo4jUserKey, username), (Neo4jPasswordKey, password)]);
        keyringStore == store' && configFile == AfterSave(old(configFile), c', configWritable)
        && log == old(log) + [Redact(c')]
    {
      StoreSecrets(LoadConfig(configFile),
                   [(Neo4jUriKey, uri), (Neo4jUserKey, username), (Neo4jPasswordKey, password)]);
      return true;
    }

    /** `get_server_port`: the stored port, 8080 when there is none. */
    function GetServerPort(): (r: Value)
      reads this
      ensures ServerPortKey !in LoadConfig(configFile) ==> r == Num(DefaultServerPort)
      ensures ServerPortKey in LoadConfig(configFile) ==> r == LoadConfig(configFile)[ServerPortKey]
    {
      Get(LoadConfig(configFile), ServerPortKey, Num(DefaultServerPort))
    }

    /** `save_server_port`: stores `int(port)`; text that is no integer makes it fail. */
    method SaveServerPort(port: string) returns (ok: bool)
      modifies this`configFile, this`log
      ensures ok <==> ParseInt(port).Some?
      ensures ok ==> configFile == AfterSave(old(configFile),
                       LoadConfig(old(configFile))[ServerPortKey := Num(ParseInt(port).value)], configWritable)
      ensures ok ==> log == old(log) + [Redact(LoadConfig(old(configFile))[ServerPortKey := Num(ParseInt(port).value)])]
      ensures !ok ==> configFile == old(configFile) && log == old(log)
    {
      var parsed := ParseInt(port);
      if parsed.None? {
        return false;
      }
      SaveConfig(LoadConfig(configFile)[ServerPortKey := Num(parsed.value)]);
      return true;
    }

    /** `get_temp_dir`. */
    function GetTempDir(): (r: Value)
      reads this
      ensures TempDirKey !in LoadConfig(configFile) ==> r == Str(defaultTempDir)
      ensures TempDirKey in LoadConfig(configFile) ==> r == LoadConfig(configFile)[TempDirKey]
    {
      Get(LoadConfig(configFile), TempDirKey, Str(defaultTempDir))
    }

    /** `save_temp_dir`: creates the directory (`mkdirOk`) and then stores the path. */
    method SaveTempDir(dir: string, mkdirOk: bool) returns (ok: bool)
      modifies this`configFile, this`log
      ensures ok == mkdirOk
      ensures ok ==> configFile == AfterSave(old(configFile), LoadConfig(old(configFile))[TempDirKey := Str(dir)], configWritable)
      ensures ok ==> log == old(log) + [Redact(LoadConfig(old(configFile))[TempDirKey := Str(dir)])]
      ensures !ok ==> configFile == old(configFile) && log == old(log)
    {
      if !mkdirOk {
        return false;
      }
      SaveConfig(LoadConfig(configFile)[TempDirKey := Str(dir)]);
      return true;
    }

    /** One keyring read; a raise drops the keyring for the session. */
    method ReadSecret(key: string) returns (r: Option<KeyringRead>)
      modifies this`hasKeyring, status`hasKeyring
      ensures r == ReadKeyring(old(hasKeyring), keyringStore, keyringReadFails, key)
      ensures hasKeyring == (old(hasKeyring) && !RaisedRead(r))
      ensures status.hasKeyring == (old(status.hasKeyring) && !RaisedRead(r))
    {
      r := ReadKeyring(hasKeyring, keyringStore, keyringReadFails, key);
      if RaisedRead(r) {
        Latch();
      }
    }

    /** `get_huggingface_credentials`: the config's username and the chained token. */
    method GetHuggingFaceCredentials() returns (username: Value, token: Value)
      modifies this`hasKeyring, status`hasKeyring
      ensures var c := LoadConfig(configFile);
        var read := ReadKeyring(old(hasKeyring), keyringStore, keyringReadFails, HuggingFaceKey);
        && username == Get(c, HuggingFaceUserKey, Str(""))
        && token == SecretChain(KeyringValue(read), c, HuggingFaceKey, envVars, HuggingFaceKey)
        && hasKeyring == (old(hasKeyring) && !RaisedRead(read))
        && status.hasKeyring == (old(status.hasKeyring) && !RaisedRead(read))
    {
      var config := LoadConfig(configFile);
      username := Get(config, HuggingFaceUserKey, Str(""));
      var read := ReadSecret(HuggingFaceKey);
      token := SecretChain(KeyringValue(read), config, HuggingFaceKey, envVars, HuggingFaceKey);
    }

    /** `get_openapi_key`. */
    method GetOpenApiKey() returns (key: Value)
      modifies this`hasKeyring, status`hasKeyring
      ensures var read := ReadKeyring(old(hasKeyring), keyringStore, keyringReadFails, OpenApiKey);
        && key == SecretChain(KeyringValue(read), LoadConfig(configFile), OpenApiKey, envVars, OpenApiKey)
        && hasKeyring == (old(hasKeyring) && !RaisedRead(read))
        && status.hasKeyring == (old(status.hasKeyring) && !RaisedRead(read))
    {
      var read := ReadSecret(OpenApiKey);
      key := SecretChain(KeyringValue(read), LoadConfig(configFile), OpenApiKey, envVars, OpenApiKey);
    }

    /**
     * `get_neo4j_credentials`. The keyring is only read when the process
     * environment does not supply all three; the reads stop at the first raise.
     */
    method GetNeo4jCredentials() returns (r: Option<Neo4jCredentials>)
      modifies this`hasKeyring, status`hasKeyring
      ensures var outcomes := Neo4jReadsFor(osEnv, old(hasKeyring), keyringStore, keyringReadFails);
        && r == Neo4jLookup(osEnv, outcomes, LoadConfig(configFile), envVars, dotEnv)
        && hasKeyring == (old(hasKeyring) && !AnyRaised(outcomes))
        && status.hasKeyring == (old(status.hasKeyring) && !AnyRaised(outcomes))
    {
      var fromOs := Neo4jFromOsEnv(osEnv);
      if fromOs.Some? {
        return fromOs;
      }
      var outcomes := NoNeo4jReads;
      if hasKeyring {
        var uri := ReadSecret(Neo4jUriKey);
        outcomes := outcomes.(uri := uri);
        if !RaisedRead(uri) {
          var user := ReadSecret(Neo4jUserKey);
          outcomes := outcomes.(username := user);
          if !RaisedRead(user) {
            var password := ReadSecret(Neo4jPasswordKey);
            outcomes := outcomes.(password := password);
          }
        }
      }
      r := Neo4jLookup(osEnv, outcomes, LoadConfig(configFile), envVars, dotEnv);
    }

    /**
     * `get_openai_key`. A key found only in `.env` is also written to the
     * process environment for later calls.
     */
    method GetOpenAiKey() returns (key: Option<Value>)
      modifies this`hasKeyring, status`hasKeyring, this`osEnv
      ensures var read := OpenAiKeyringRead(old(hasKeyring), keyringStore, keyringReadFails, old(osEnv), envVars);
        var found := OpenAiKeyLookup(old(osEnv), envVars, read, LoadConfig(configFile), dotEnv);
        && key == found.key
        && osEnv == OpenAiEnvAfter(old(osEnv), found)
        && hasKeyring == (old(hasKeyring) && !RaisedRead(read))
        && status.hasKeyring == (old(status.hasKeyring) && !RaisedRead(read))
    {
      var read: Option<KeyringRead> := None;
      if !Truthy(EnvValue(osEnv, "OPENAI_API_KEY")) && !Truthy(EnvValue(envVars, "openai_api_key")) {
        read := ReadSecret(OpenAiKey);
      }
      var found := OpenAiKeyLookup(osEnv, envVars, read, LoadConfig(configFile), dotEnv);
      if found.fromDotEnv {
        osEnv := osEnv["OPENAI_API_KEY" := found.key.value.s];
      }
      key := found.key;
    }
  }
}

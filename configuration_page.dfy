/**
 * The frontend configuration page (`ConfigurationPage`): the form holding
 * the credentials a user types, the copy of it kept in browser storage with
 * its secrets blanked, the request body sent when the form is saved, and
 * the per-service "configured" marks.
 *
 * The form is a JavaScript object keyed by field name; it is modelled as an
 * insertion-ordered dictionary because a saved state may bring in keys the
 * form does not have. Browser storage, the network and toasts are outside
 * the page: what storage holds and what a request returned are parameters
 * or fields, and the toasts shown are recorded in order.
 */
module ConfigurationPage {
  import opened Wrappers
  import opened Text
  import opened Dicts
  import opened Toasts

  // ---------------------------------------------------------------------------
  // Fields and their sensitivity
  // ---------------------------------------------------------------------------

  const DefaultNeo4jUri := "bolt://localhost:7687"
  const DefaultNeo4jUsername := "neo4j"
  const DefaultServerPort := "8080"

  /** The form as the page first renders it. */
  const InitialForm: Dict<string> := [
    ("huggingface_token", ""),
    ("github_token", ""),
    ("openai_api_key", ""),
    ("neo4j_uri", DefaultNeo4jUri),
    ("neo4j_username", DefaultNeo4jUsername),
    ("neo4j_password", ""),
    ("server_port", DefaultServerPort)
  ]

  /** The fields blanked after a successful save. */
  const ClearedOnSave: seq<string> :=
    ["huggingface_token", "github_token", "openai_api_key", "neo4j_password"]

  /** A field is kept out of storage when its name mentions a password, token or key. */
  predicate IsSensitive(name: string) {
    Contains(name, "password") || Contains(name, "token") || Contains(name, "key")
  }

  /** The four secret fields are sensitive. */
  lemma SecretFieldsSensitive()
    ensures IsSensitive("huggingface_token") && IsSensitive("github_token")
    ensures IsSensitive("openai_api_key") && IsSensitive("neo4j_password")
  {
    assert OccursAt("huggingface_token", "token", 12);
    assert OccursAt("github_token", "token", 7);
    assert OccursAt("openai_api_key", "key", 11);
    assert OccursAt("neo4j_password", "password", 6);
  }

  /** The Neo4j URI and user name and the server port are not sensitive. */
  lemma PlainFieldsNotSensitive(name: string)
    requires name == "neo4j_uri" || name == "neo4j_username" || name == "server_port"
    ensures !IsSensitive(name)
  {
    if name == "neo4j_uri" {
      assert 'k' !in name && 'p' !in name;
    } else if name == "neo4j_username" {
      assert 'k' !in name && 'p' !in name;
    } else {
      assert 'k' !in name && 'a' !in name;
    }
    NotSensitive(name);
  }

  /** A name without a `k`, and without a `p` or an `a`, mentions no password, token or key. */
  lemma NotSensitive(name: string)
    requires 'k' !in name && ('p' !in name || 'a' !in name)
    ensures !IsSensitive(name)
  {
    NotContainsMissingChar(name, "key", 'k');
    NotContainsMissingChar(name, "token", 'k');
    if 'p' !in name {
      NotContainsMissingChar(name, "password", 'p');
    } else {
      NotContainsMissingChar(name, "password", 'a');
    }
  }

  /** A field's current text; a field the form lacks reads as empty. */
  function Field(form: Dict<string>, name: string): string {
    Lookup(form, name).GetOr("")
  }

  // ---------------------------------------------------------------------------
  // Restoring the saved form
  // ---------------------------------------------------------------------------

  /**
   * One saved entry applied to the form: a non-sensitive value always
   * overwrites, even when empty; a sensitive one only when non-empty.
   */
  function MergeEntry(form: Dict<string>, entry: (string, string)): Dict<string> {
    if !IsSensitive(entry.0) || entry.1 != "" then Put(form, entry.0, entry.1) else form
  }

  /** The saved entries applied to the form in order. */
  function MergeSaved(form: Dict<string>, saved: Dict<string>): Dict<string>
    decreases |saved|
  {
    if saved == [] then form else MergeSaved(MergeEntry(form, saved[0]), saved[1..])
  }

  /** What a field reads after the merge, given what was saved for it. */
  function MergedValue(form: Dict<string>, saved: Dict<string>, k: string): Option<string> {
    match Lookup(saved, k)
    case None => Lookup(form, k)
    case Some(v) => if !IsSensitive(k) || v != "" then Some(v) else Lookup(form, k)
  }

  /**
   * After the merge, an unsaved field keeps its value, a saved non-sensitive
   * field takes the saved value, a saved sensitive field takes it only when
   * it is non-empty, and a saved key the form lacked is copied in. A parsed
   * object has unique keys.
   */
  lemma {:induction false} MergeSavedLookup(form: Dict<string>, saved: Dict<string>, k: string)
    requires UniqueKeys(saved)
    ensures Lookup(MergeSaved(form, saved), k) == MergedValue(form, saved, k)
    decreases |saved|
  {
    if saved != [] {
      var (k0, v0) := saved[0];
      var next := MergeEntry(form, saved[0]);
      var rest := saved[1..];
      assert UniqueKeys(rest);
      assert Keys(saved) == [k0] + Keys(rest);
      MergeSavedLookup(next, rest, k);
      if k0 == k {
        assert k !in Keys(rest) by {
          forall i | 0 <= i < |rest| ensures Keys(rest)[i] != k {
            assert rest[i] == saved[i + 1];
          }
        }
        if !IsSensitive(k0) || v0 != "" {
          PutLookupSame(form, k0, v0);
        }
      } else if !IsSensitive(k0) || v0 != "" {
        PutLookupOther(form, k0, v0, k);
      }
    }
  }

  /** The form's own fields keep their positions; new keys come after them. */
  lemma {:induction false} MergeKeepsFieldOrder(form: Dict<string>, saved: Dict<string>)
    ensures |Keys(form)| <= |Keys(MergeSaved(form, saved))|
    ensures Keys(MergeSaved(form, saved))[..|form|] == Keys(form)
    decreases |saved|
  {
    if saved != [] {
      var next := MergeEntry(form, saved[0]);
      MergeKeepsFieldOrder(next, saved[1..]);
      if next != form {
        if saved[0].0 !in Keys(form) {
          assert Keys(next)[..|form|] == Keys(form);
        }
      }
    }
  }

  /** The `forEach` of `loadSavedFormState` over the parsed saved state. */
  method MergeSavedState(form: Dict<string>, saved: Dict<string>) returns (merged: Dict<string>)
    ensures merged == MergeSaved(form, saved)
  {
    merged := form;
    var i := 0;
    while i < |saved|
      invariant 0 <= i <= |saved|
      invariant MergeSaved(merged, saved[i..]) == MergeSaved(form, saved)
    {
      assert saved[i..][1..] == saved[i + 1..];
      var (key, value) := saved[i];
      if !IsSensitive(key) {
        merged := Put(merged, key, value);
      } else if value != "" {
        merged := Put(merged, key, value);
      }
      i := i + 1;
    }
  }

  // ---------------------------------------------------------------------------
  // Editing a field
  // ---------------------------------------------------------------------------

  /** The copy stored after `name` was edited: the edited field is blanked when sensitive. */
  function PersistedCopy(form: Dict<string>, name: string): Dict<string> {
    if IsSensitive(name) then Put(form, name, "") else form
  }

  /**
   * An edit changes only the edited field; the stored copy matches the new
   * form except that a sensitive edited field is stored empty. Other
   * sensitive fields are stored as the form holds them.
   */
  lemma InputChangeEffects(form: Dict<string>, name: string, value: string, other: string)
    ensures Lookup(Put(form, name, value), name) == Some(value)
    ensures Lookup(PersistedCopy(Put(form, name, value), name), name)
      == Some(if IsSensitive(name) then "" else value)
    ensures other != name ==> Lookup(Put(form, name, value), other) == Lookup(form, other)
    ensures other != name ==> Lookup(PersistedCopy(Put(form, name, value), name), other) == Lookup(form, other)
  {
    var edited := Put(form, name, value);
    PutLookupSame(form, name, value);
    PutLookupSame(edited, name, "");
    if other != name {
      PutLookupOther(form, name, value, other);
      PutLookupOther(edited, name, "", other);
    }
  }

  // ---------------------------------------------------------------------------
  // Saving
  // ---------------------------------------------------------------------------

  /** Whether all three Neo4j fields are filled in. */
  predicate Neo4jComplete(form: Dict<string>) {
    Field(form, "neo4j_uri") != "" && Field(form, "neo4j_username") != ""
      && Field(form, "neo4j_password") != ""
  }

  /**
   * `configToSave`, the request body of a save: one optional member per key
   * a save may send. The body has no member for the server port, so the
   * port is never sent.
   */
  datatype SaveBody = SaveBody(
    huggingfaceToken: Option<string>,
    githubToken: Option<string>,
    openaiApiKey: Option<string>,
    neo4jUri: Option<string>,
    neo4jUsername: Option<string>,
    neo4jPassword: Option<string>)

  /** The value when it is non-empty, nothing otherwise. */
  function NonEmpty(v: string): Option<string> {
    if v != "" then Some(v) else None
  }

  /** The body the save handler builds from the form. */
  function SavePayload(form: Dict<string>): SaveBody {
    var complete := Neo4jComplete(form);
    SaveBody(
      NonEmpty(Field(form, "huggingface_token")),
      NonEmpty(Field(form, "github_token")),
      NonEmpty(Field(form, "openai_api_key")),
      if complete then Some(Field(form, "neo4j_uri")) else None,
      if complete then Some(Field(form, "neo4j_username")) else None,
      if complete then Some(Field(form, "neo4j_password")) else None)
  }

  /**
   * Each token is sent, with the form's value, exactly when it is
   * non-empty; the Neo4j fields are sent together or not at all, and
   * exactly when all three are filled in.
   */
  lemma SavePayloadRules(form: Dict<string>)
    ensures var body := SavePayload(form);
      && (body.huggingfaceToken.Some? <==> Field(form, "huggingface_token") != "")
      && (body.githubToken.Some? <==> Field(form, "github_token") != "")
      && (body.openaiApiKey.Some? <==> Field(form, "openai_api_key") != "")
      && (body.huggingfaceToken.Some? ==> body.huggingfaceToken.value == Field(form, "huggingface_token"))
      && (body.githubToken.Some? ==> body.githubToken.value == Field(form, "github_token"))
      && (body.openaiApiKey.Some? ==> body.openaiApiKey.value == Field(form, "openai_api_key"))
      && (body.neo4jUri.Some? == body.neo4jUsername.Some? == body.neo4jPassword.Some?)
      && (body.neo4jUri.Some? ==>
            body.neo4jUri.value != "" && body.neo4jUsername.value != "" && body.neo4jPassword.value != "")
      && (body.neo4jUri.Some? <==> Neo4jComplete(form))
  {
  }

  /** The conditional assignments that fill `configToSave`. */
  method BuildSaveBody(form: Dict<string>) returns (payload: SaveBody)
    ensures payload == SavePayload(form)
  {
    var huggingfaceToken, githubToken, openaiApiKey: Option<string> := None, None, None;
    var neo4jUri, neo4jUsername, neo4jPassword: Option<string> := None, None, None;
    if Field(form, "huggingface_token") != "" {
      huggingfaceToken := Some(Field(form, "huggingface_token"));
    }
    if Field(form, "github_token") != "" {
      githubToken := Some(Field(form, "github_token"));
    }
    if Field(form, "openai_api_key") != "" {
      openaiApiKey := Some(Field(form, "openai_api_key"));
    }
    if Neo4jComplete(form) {
      neo4jUri := Some(Field(form, "neo4j_uri"));
      neo4jUsername := Some(Field(form, "neo4j_username"));
      neo4jPassword := Some(Field(form, "neo4j_password"));
    }
    payload := SaveBody(huggingfaceToken, githubToken, openaiApiKey, neo4jUri, neo4jUsername, neo4jPassword);
  }

  /** A form with the secret fields blanked and everything else kept. */
  function Sanitized(form: Dict<string>): Dict<string> {
    Put(Put(Put(Put(form, "huggingface_token", ""), "github_token", ""), "openai_api_key", ""),
      "neo4j_password", "")
  }

  /** After a save, the four secrets read empty and every other field is unchanged. */
  lemma SanitizedFields(form: Dict<string>, k: string)
    ensures Lookup(Sanitized(form), k) == if k in ClearedOnSave then Some("") else Lookup(form, k)
  {
    var c := ClearedOnSave;
    assert c[1..][1..][1..][1..] == [];
    assert Sanitized(form) == PutEach(form, c, "");
    PutEachLookup(form, c, "", k);
  }

  /** The `items` flags of a successful save response. */
  datatype UpdatedItems = UpdatedItems(huggingface: bool, github: bool, openai: bool, neo4j: bool)

  /** The services named in the "Updated:" toast, in the page's fixed order. */
  function UpdatedNames(items: UpdatedItems): seq<string> {
    var names := AppendIf([], items.huggingface, "Hugging Face");
    AppendIf(AppendIf(AppendIf(names, items.github, "GitHub"), items.openai, "OpenAI"), items.neo4j, "Neo4j")
  }

  /** The toast lists exactly the flagged services. */
  lemma UpdatedNamesListed(items: UpdatedItems)
    ensures var names := UpdatedNames(items);
      && ("Hugging Face" in names <==> items.huggingface)
      && ("GitHub" in names <==> items.github)
      && ("OpenAI" in names <==> items.openai)
      && ("Neo4j" in names <==> items.neo4j)
      && (names == [] <==> !AnyUpdated(items))
  {
  }

  predicate AnyUpdated(items: UpdatedItems) {
    items.huggingface || items.github || items.openai || items.neo4j
  }

  /** The toast keeps the order Hugging Face, GitHub, OpenAI, Neo4j. */
  lemma UpdatedNamesOrdered(items: UpdatedItems)
    ensures Ordered(UpdatedNames(items))
  {
    assert ServiceRank("Hugging Face") == 0 && ServiceRank("GitHub") == 1;
    assert ServiceRank("OpenAI") == 2 && ServiceRank("Neo4j") == 3;
    var n1 := AppendIf([], items.huggingface, "Hugging Face");
    OrderedAppendIf([], items.huggingface, "Hugging Face");
    var n2 := AppendIf(n1, items.github, "GitHub");
    OrderedAppendIf(n1, items.github, "GitHub");
    var n3 := AppendIf(n2, items.openai, "OpenAI");
    OrderedAppendIf(n2, items.openai, "OpenAI");
    OrderedAppendIf(n3, items.neo4j, "Neo4j");
  }

  /** `names` followed by `next` when `flagged` holds. */
  function AppendIf(names: seq<string>, flagged: bool, next: string): seq<string> {
    if flagged then names + [next] else names
  }

  /** Each name ranks strictly after the one before it. */
  predicate Ordered(names: seq<string>) {
    forall i, j :: 0 <= i < j < |names| ==> ServiceRank(names[i]) < ServiceRank(names[j])
  }

  predicate RanksBelow(names: seq<string>, bound: nat) {
    forall i :: 0 <= i < |names| ==> ServiceRank(names[i]) < bound
  }

  lemma OrderedAppendIf(names: seq<string>, flagged: bool, next: string)
    requires Ordered(names) && RanksBelow(names, ServiceRank(next))
    ensures Ordered(AppendIf(names, flagged, next)) && RanksBelow(AppendIf(names, flagged, next), ServiceRank(next) + 1)
  {
  }

  /** The position of a service in the toast's order; the four names start with different letters. */
  function ServiceRank(name: string): nat {
    if name == [] then 4
    else if name[0] == 'H' then 0
    else if name[0] == 'G' then 1
    else if name[0] == 'O' then 2
    else if name[0] == 'N' then 3
    else 4
  }

  // ---------------------------------------------------------------------------
  // Configured marks and the Neo4j deployment
  // ---------------------------------------------------------------------------

  /** The "configured" mark of each service; the page starts with none set. */
  datatype ConfigStatus = ConfigStatus(huggingface: bool, github: bool, openai: bool, neo4j: bool)

  /** What fetching the configuration status gave. */
  datatype StatusResponse =
    | StatusThrew
    | StatusNotOk
    | StatusOk(success: bool, hasData: bool, neo4jConfigured: bool)

  /**
   * The marks a status response sets, or `None` when it leaves them alone:
   * Hugging Face, GitHub and OpenAI are marked on every path that sets
   * marks, and Neo4j only when the server says it is configured.
   */
  function NewStatus(response: StatusResponse): (r: Option<ConfigStatus>)
    ensures r.None? <==> response.StatusOk? && !(response.success && response.hasData)
    ensures r.Some? ==> r.value.huggingface && r.value.github && r.value.openai
    ensures r.Some? ==> (r.value.neo4j <==> response.StatusOk? && response.neo4jConfigured)
  {
    match response
    case StatusOk(success, hasData, neo4jConfigured) =>
      if success && hasData then Some(ConfigStatus(true, true, true, neo4jConfigured)) else None
    case _ => Some(ConfigStatus(true, true, true, false))
  }

  /** What the deployment request gave. A body lacking `data` raises, so it arrives as `DeployThrew`. */
  datatype DeployResponse =
    | DeployThrew(isError: bool, errorMessage: string)
    | DeployNotOk
    | DeployOk(success: bool, uri: string, username: string, password: string, message: string)

  /** The Neo4j fields a successful deployment fills in, each with its fallback. */
  function DeployedFields(uri: string, username: string, password: string): (r: (string, string, string))
    ensures r.0 != "" && r.1 != ""
    ensures uri != "" ==> r.0 == uri
    ensures uri == "" ==> r.0 == DefaultNeo4jUri
    ensures username != "" ==> r.1 == username
    ensures username == "" ==> r.1 == DefaultNeo4jUsername
    ensures r.2 == password
  {
    ((if uri != "" then uri else DefaultNeo4jUri),
     (if username != "" then username else DefaultNeo4jUsername),
     password)
  }

  /** The form after a successful deployment. */
  function DeployedForm(form: Dict<string>, uri: string, username: string, password: string): Dict<string> {
    var fields := DeployedFields(uri, username, password);
    Put(Put(Put(form, "neo4j_uri", fields.0), "neo4j_username", fields.1), "neo4j_password", fields.2)
  }

  /**
   * After a successful deployment the next save sends the Neo4j fields
   * exactly when the deployment returned a password, since the URI and the
   * user name always fall back to non-empty defaults.
   */
  lemma DeployCompletesNeo4j(form: Dict<string>, uri: string, username: string, password: string)
    ensures Neo4jComplete(DeployedForm(form, uri, username, password)) <==> password != ""
  {
    var fields := DeployedFields(uri, username, password);
    assert |"neo4j_uri"| != |"neo4j_username"| && |"neo4j_uri"| != |"neo4j_password"|;
    assert "neo4j_username"[6] != "neo4j_password"[6];
    PutThreeLookup(form, "neo4j_uri", fields.0, "neo4j_username", fields.1, "neo4j_password", fields.2);
  }

  /** The error toast of a failed deployment. */
  function DeployError(response: DeployResponse): string
    requires !(response.DeployOk? && response.success)
  {
    match response
    case DeployNotOk => "Failed to deploy Neo4j container"
    case DeployOk(_, _, _, _, message) => if message != "" then message else "Unknown error deploying Neo4j"
    case DeployThrew(isError, message) => if isError then message else "Failed to deploy Neo4j"
  }

  // ---------------------------------------------------------------------------
  // The page
  // ---------------------------------------------------------------------------

  /** What the save request gave. */
  datatype SaveResponse =
    | SaveThrew
    | SaveFailed(message: string)
    | Saved(items: Option<UpdatedItems>)

  /** The toast listing the updated services, shown only when there are some. */
  function UpdatedToast(items: Option<UpdatedItems>): (ts: seq<Toast>)
    ensures |ts| <= 1
    ensures |ts| == 1 <==> items.Some? && AnyUpdated(items.value)
    ensures |ts| == 1 ==> ts[0] == Success("Updated: " + Join(UpdatedNames(items.value), ", "))
  {
    match items
    case Some(flags) =>
      UpdatedNamesListed(flags);
      if UpdatedNames(flags) != [] then [Success("Updated: " + Join(UpdatedNames(flags), ", "))] else []
    case None => []
  }

  /**
   * The toasts a save shows: success and then, when the response flags
   * updated services, the list of them; or one error.
   */
  function SaveToasts(response: SaveResponse): (ts: seq<Toast>)
    ensures 1 <= |ts| <= 2 && (response.Saved? <==> ts[0].Success?)
    ensures |ts| == 2 <==> response.Saved? && response.items.Some? && AnyUpdated(response.items.value)
    ensures response.Saved? ==>
      ts[0] == Success("Configuration saved successfully") && ts[1..] == UpdatedToast(response.items)
    ensures response.SaveFailed? ==>
      ts == [Failure(if response.message != "" then response.message else "Failed to save configuration")]
    ensures response.SaveThrew? ==> ts == [Failure("Error saving configuration")]
  {
    match response
    case Saved(items) =>
      [Success("Configuration saved successfully")] + UpdatedToast(items)
    case SaveFailed(message) =>
      [Failure(if message != "" then message else "Failed to save configuration")]
    case SaveThrew => [Failure("Error saving configuration")]
  }

  class ConfigurationPage {
    var loading: bool
    var deployingNeo4j: bool
    var configStatus: ConfigStatus
    var config: Dict<string>
    /**
     * The form copy in browser storage (`homework_config_state`) as parsed;
     * `None` when storage holds nothing or text that does not parse.
     */
    var storedForm: Option<Dict<string>>
    /** Whether storage records that setup was completed. */
    var setupCompleted: bool
    var toasts: seq<Toast>

    constructor(storedForm: Option<Dict<string>>, setupCompleted: bool)
      ensures this.storedForm == storedForm && this.setupCompleted == setupCompleted
      ensures config == InitialForm && toasts == []
      ensures configStatus == ConfigStatus(false, false, false, false)
      ensures !loading && !deployingNeo4j
    {
      loading := false;
      deployingNeo4j := false;
      configStatus := ConfigStatus(false, false, false, false);
      config := InitialForm;
      this.storedForm := storedForm;
      this.setupCompleted := setupCompleted;
      toasts := [];
    }

    /** `loadConfigurationStatus`: every path that sets marks also records setup as completed. */
    method LoadConfigurationStatus(response: StatusResponse)
      modifies this`loading, this`configStatus, this`setupCompleted
      ensures configStatus == NewStatus(response).GetOr(old(configStatus))
      ensures setupCompleted == (old(setupCompleted) || NewStatus(response).Some?)
      ensures !loading
    {
      loading := true;
      var next := NewStatus(response);
      if next.Some? {
        configStatus := next.value;
        setupCompleted := true;
      }
      loading := false;
    }

    /**
     * `loadSavedFormState`: reads back the stored copy that `HandleInputChange`
     * and `ClearSecrets` write, and merges it into the form; storage itself
     * is left as it is.
     */
    method LoadSavedFormState()
      modifies this`config
      ensures storedForm.None? ==> config == old(config)
      ensures storedForm.Some? ==> config == MergeSaved(old(config), storedForm.value)
    {
      if storedForm.Some? {
        config := MergeSavedState(config, storedForm.value);
      }
    }

    /** `handleInputChange`: the form takes the new value and storage a copy of it. */
    method HandleInputChange(name: string, value: string)
      modifies this`config, this`storedForm
      ensures config == Put(old(config), name, value)
      ensures storedForm == Some(PersistedCopy(config, name))
    {
      config := Put(config, name, value);
      var persisted := config;
      if IsSensitive(name) {
        persisted := Put(persisted, name, "");
      }
      storedForm := Some(persisted);
    }

    /**
     * The success path of a save: storage and the form lose their secrets,
     * the marks are reloaded, and the updated services are listed.
     */
    method SaveSucceeded(items: Option<UpdatedItems>, statusAfter: StatusResponse)
      modifies this`loading, this`configStatus, this`setupCompleted, this`config, this`storedForm, this`toasts
      ensures config == Sanitized(old(config)) && storedForm == Some(config)
      ensures setupCompleted
      ensures configStatus == NewStatus(statusAfter).GetOr(old(configStatus))
      ensures toasts == old(toasts) + SaveToasts(Saved(items))
      ensures !loading
    {
      ClearSecrets();
      LoadConfigurationStatus(statusAfter);
      setupCompleted := true;
      toasts := toasts + SaveToasts(Saved(items));
    }

    /** The stored copy and the form both lose their secrets. */
    method ClearSecrets()
      modifies this`config, this`storedForm
      ensures config == Sanitized(old(config)) && storedForm == Some(config)
    {
      var sanitized := Sanitized(config);
      storedForm := Some(sanitized);
      config := sanitized;
    }

    /**
     * `handleSaveConfiguration`: `payload` is the request body sent.
     * `statusAfter` is what the status reload after a successful save gave.
     */
    method HandleSaveConfiguration(response: SaveResponse, statusAfter: StatusResponse)
      returns (payload: SaveBody)
      modifies this`loading, this`configStatus, this`setupCompleted, this`config, this`storedForm, this`toasts
      ensures payload == SavePayload(old(config))
      ensures response.Saved? ==> config == Sanitized(old(config)) && storedForm == Some(config)
      ensures response.Saved? ==> setupCompleted
      ensures response.Saved? ==> configStatus == NewStatus(statusAfter).GetOr(old(configStatus))
      ensures toasts == old(toasts) + SaveToasts(response)
      ensures !response.Saved? ==> config == old(config) && storedForm == old(storedForm)
      ensures !response.Saved? ==> configStatus == old(configStatus) && setupCompleted == old(setupCompleted)
      ensures !loading
    {
      loading := true;
      payload := BuildSaveBody(config);
      match response {
        case Saved(items) =>
          SaveSucceeded(items, statusAfter);
        case SaveFailed(message) =>
          toasts := toasts + [Failure(if message != "" then message else "Failed to save configuration")];
        case SaveThrew =>
          toasts := toasts + [Failure("Error saving configuration")];
      }
      loading := false;
    }

    /** `handleDeployNeo4j`: a successful deployment fills the Neo4j fields. */
    method HandleDeployNeo4j(response: DeployResponse)
      modifies this`deployingNeo4j, this`config, this`toasts
      ensures response.DeployOk? && response.success ==>
        config == DeployedForm(old(config), response.uri, response.username, response.password)
        && toasts == old(toasts) + [Success("Neo4j deployed successfully!")]
      ensures !(response.DeployOk? && response.success) ==>
        config == old(config) && toasts == old(toasts) + [Failure(DeployError(response))]
      ensures !deployingNeo4j
    {
      deployingNeo4j := true;
      if response.DeployOk? && response.success {
        toasts := toasts + [Success("Neo4j deployed successfully!")];
        config := DeployedForm(config, response.uri, response.username, response.password);
      } else {
        toasts := toasts + [Failure(DeployError(response))];
      }
      deployingNeo4j := false;
    }
  }
}

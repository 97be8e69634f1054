/**
 * The first-run setup wizard (`SetupWizard`): a dialog that walks through
 * six configuration items one step at a time, refuses to leave a required
 * item empty, and posts the filled-in items when the last step is passed.
 *
 * The items are held in an array updated in place, as the component
 * mutates its item objects. The status check and the save request are
 * outside the component: what they gave is a parameter of the handler.
 */
module SetupWizard {
  import opened Wrappers
  import opened Dicts

  datatype ConfigItem = ConfigItem(key: string, name: string, required: bool, value: string)

  /** The items in the order the wizard shows them. */
  const InitialItems: seq<ConfigItem> := [
    ConfigItem("huggingface_token", "Hugging Face Token", true, ""),
    ConfigItem("github_token", "GitHub Access Token", false, ""),
    ConfigItem("openai_api_key", "OpenAI API Key", false, ""),
    ConfigItem("neo4j_uri", "Neo4j URI", false, "bolt://localhost:7687"),
    ConfigItem("neo4j_username", "Neo4j Username", false, "neo4j"),
    ConfigItem("neo4j_password", "Neo4j Password", false, "")
  ]

  /** The item keys, in order; they never change. */
  const ItemKeys: seq<string> :=
    ["huggingface_token", "github_token", "openai_api_key", "neo4j_uri", "neo4j_username", "neo4j_password"]

  /** Only the Hugging Face token starts out required; the keys are distinct. */
  lemma InitialRequirements()
    ensures |InitialItems| == |ItemKeys| == 6
    ensures forall i :: 0 <= i < |InitialItems| ==> InitialItems[i].key == ItemKeys[i]
    ensures forall i :: 0 <= i < |InitialItems| ==> (InitialItems[i].required <==> i == 0)
    ensures forall i, j :: 0 <= i < j < |ItemKeys| ==> ItemKeys[i] != ItemKeys[j]
  {
  }

  /** What the status check on mount gave. */
  datatype EnvironmentCheck =
    | CheckThrew
    | CheckResponse(success: bool, missingConfigs: Option<seq<string>>)

  /** What the save request gave; a successful save also reloads the page. */
  datatype SaveOutcome = SaveOk | SaveNotOk | SaveThrew

  /** `configToSave`: the items whose value is non-empty or that are required, keyed by item key. */
  function WizardPayload(items: seq<ConfigItem>): Dict<string>
    decreases |items|
  {
    if items == [] then []
    else
      var acc := WizardPayload(items[..|items| - 1]);
      var item := items[|items| - 1];
      if item.value != "" || item.required then Put(acc, item.key, item.value) else acc
  }

  /** No two items share a key. */
  predicate DistinctItemKeys(items: seq<ConfigItem>) {
    forall i, j :: 0 <= i < j < |items| ==> items[i].key != items[j].key
  }

  /**
   * With distinct keys, an item is sent, with its value, exactly when the
   * value is non-empty or the item is required, so an empty required item
   * is sent as the empty string.
   */
  lemma {:induction false} WizardPayloadItem(items: seq<ConfigItem>, i: nat)
    requires DistinctItemKeys(items) && i < |items|
    ensures Lookup(WizardPayload(items), items[i].key)
      == if items[i].value != "" || items[i].required then Some(items[i].value) else None
    decreases |items|
  {
    var init := items[..|items| - 1];
    var last := items[|items| - 1];
    if i == |items| - 1 {
      if last.value != "" || last.required {
        PutLookupSame(WizardPayload(init), last.key, last.value);
      }
      WizardPayloadAbsent(init, last.key);
    } else {
      WizardPayloadItem(init, i);
      if last.value != "" || last.required {
        PutLookupOther(WizardPayload(init), last.key, last.value, items[i].key);
      }
    }
  }

  /** A key that no item has is not sent. */
  lemma {:induction false} WizardPayloadAbsent(items: seq<ConfigItem>, k: string)
    requires forall i :: 0 <= i < |items| ==> items[i].key != k
    ensures Lookup(WizardPayload(items), k).None?
    decreases |items|
  {
    if items != [] {
      var init := items[..|items| - 1];
      var last := items[|items| - 1];
      WizardPayloadAbsent(init, k);
      if last.value != "" || last.required {
        PutLookupOther(WizardPayload(init), last.key, last.value, k);
      }
    }
  }

  class SetupWizard {
    var open: bool
    var loading: bool
    var step: nat
    var items: array<ConfigItem>

    /** The step stays on an item, and the items keep their keys. */
    predicate Valid()
      reads this, items
    {
      && items.Length == |ItemKeys|
      && step < items.Length
      && (forall i :: 0 <= i < items.Length ==> items[i].key == ItemKeys[i])
      && items[0].required
    }

    constructor()
      ensures Valid() && fresh(items)
      ensures items[..] == InitialItems && step == 0 && !open && !loading
    {
      open := false;
      loading := false;
      step := 0;
      items := new ConfigItem[|InitialItems|](i requires 0 <= i < |InitialItems| => InitialItems[i]);
    }

    /**
     * The status check on mount: missing items become required (and none
     * stops being required) and the wizard opens when some item is missing,
     * when the check did not succeed, or when it failed outright.
     */
    method CheckEnvironment(check: EnvironmentCheck)
      requires Valid()
      modifies this`open, items
      ensures Valid()
      ensures check.CheckResponse? && check.success && check.missingConfigs.Some? && check.missingConfigs.value != [] ==>
        forall i :: 0 <= i < items.Length ==>
          items[i] == old(items[i]).(required := old(items[i]).required || old(items[i]).key in check.missingConfigs.value)
      ensures !(check.CheckResponse? && check.success && check.missingConfigs.Some? && check.missingConfigs.value != []) ==>
        items[..] == old(items[..])
      ensures open == (old(open) || check.CheckThrew? || !check.success
        || (check.missingConfigs.Some? && check.missingConfigs.value != []))
    {
      match check {
        case CheckThrew =>
          open := true;
        case CheckResponse(success, missingConfigs) =>
          if success && missingConfigs.Some? {
            if |missingConfigs.value| > 0 {
              MarkRequired(missingConfigs.value);
              open := true;
            }
          } else if !success {
            open := true;
          }
      }
    }

    /** The `map` that marks the missing items as required. */
    method MarkRequired(missing: seq<string>)
      requires Valid()
      modifies items
      ensures Valid()
      ensures forall i :: 0 <= i < items.Length ==>
        items[i] == old(items[i]).(required := old(items[i]).required || old(items[i]).key in missing)
    {
      var i := 0;
      while i < items.Length
        invariant 0 <= i <= items.Length
        invariant forall j :: 0 <= j < i ==>
          items[j] == old(items[j]).(required := old(items[j]).required || old(items[j]).key in missing)
        invariant forall j :: i <= j < items.Length ==> items[j] == old(items[j])
      {
        var item := items[i];
        items[i] := item.(required := item.key in missing || item.required);
        i := i + 1;
      }
    }

    /** `handleInputChange`: only the given item's value changes. */
    method HandleInputChange(index: nat, value: string)
      requires Valid() && index < items.Length
      modifies items
      ensures Valid()
      ensures items[..] == old(items[..])[index := old(items[index]).(value := value)]
    {
      items[index] := items[index].(value := value);
    }

    /** `handleBack`: one step back, except on the first step. */
    method HandleBack()
      requires Valid()
      modifies this`step
      ensures Valid()
      ensures step == if old(step) > 0 then old(step) - 1 else old(step)
    {
      if step > 0 {
        step := step - 1;
      }
    }

    /**
     * `handleSkip`: one step forward, or on the last step a save, whatever
     * the current item holds. `payload` is the body posted, if any.
     */
    method HandleSkip(outcome: SaveOutcome) returns (payload: Option<Dict<string>>)
      requires Valid()
      modifies this`step, this`open, this`loading
      ensures Valid()
      ensures old(step) < items.Length - 1 ==>
        step == old(step) + 1 && payload.None? && open == old(open) && loading == old(loading)
      ensures old(step) == items.Length - 1 ==>
        step == old(step) && payload == Some(WizardPayload(items[..])) && open == (old(open) && !outcome.SaveOk?)
        && !loading
    {
      if step < items.Length - 1 {
        step := step + 1;
        payload := None;
      } else {
        var sent := SaveConfiguration(outcome);
        payload := Some(sent);
      }
    }

    /**
     * `handleNext`: like skip, except that a required item left empty keeps
     * the wizard where it is.
     */
    method HandleNext(outcome: SaveOutcome) returns (payload: Option<Dict<string>>)
      requires Valid()
      modifies this`step, this`open, this`loading
      ensures Valid()
      ensures items[old(step)].required && items[old(step)].value == "" ==>
        step == old(step) && payload.None? && open == old(open) && loading == old(loading)
      ensures !(items[old(step)].required && items[old(step)].value == "") && old(step) < items.Length - 1 ==>
        step == old(step) + 1 && payload.None? && open == old(open) && loading == old(loading)
      ensures !(items[old(step)].required && items[old(step)].value == "") && old(step) == items.Length - 1 ==>
        step == old(step) && payload == Some(WizardPayload(items[..])) && open == (old(open) && !outcome.SaveOk?)
        && !loading
    {
      var current := items[step];
      if current.required && current.value == "" {
        return None;
      }
      if step < items.Length - 1 {
        step := step + 1;
        payload := None;
      } else {
        var sent := SaveConfiguration(outcome);
        payload := Some(sent);
      }
    }

    /**
     * `saveConfiguration`: builds and posts the body; the dialog closes
     * only when the request succeeded, and loading ends on every path.
     */
    method SaveConfiguration(outcome: SaveOutcome) returns (payload: Dict<string>)
      requires Valid()
      modifies this`open, this`loading
      ensures Valid()
      ensures payload == WizardPayload(items[..])
      ensures open == (old(open) && !outcome.SaveOk?)
      ensures !loading
    {
      loading := true;
      payload := [];
      var i := 0;
      while i < items.Length
        invariant 0 <= i <= items.Length
        invariant payload == WizardPayload(items[..i])
      {
        assert items[..i + 1][..i] == items[..i];
        var item := items[i];
        if item.value != "" || item.required {
          payload := Put(payload, item.key, item.value);
        }
        i := i + 1;
      }
      assert items[..i] == items[..];
      if outcome.SaveOk? {
        open := false;
      }
      loading := false;
    }
  }

  /**
   * Whatever the wizard posts carries the Hugging Face token, since that
   * item is always required; the other items are sent when filled in.
   */
  lemma PayloadCarriesToken(items: seq<ConfigItem>)
    requires |items| == |ItemKeys|
    requires forall i :: 0 <= i < |items| ==> items[i].key == ItemKeys[i]
    requires items[0].required
    ensures Lookup(WizardPayload(items), "huggingface_token") == Some(items[0].value)
  {
    InitialRequirements();
    WizardPayloadItem(items, 0);
  }
}

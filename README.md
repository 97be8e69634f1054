# homework: a Dafny model of the frontend's state and response rules and the backend's credential store

This project models the parts of the homework application that decide
something:

- Frontend chat client. `WebSocketClient` tracks its socket, its reconnect budget and the session id learned from the server. It keeps per-type listener lists and classifies inbound frames.
- Backend credential store. `CredentialsManager` chooses between the system keyring and a JSON config file. Its lookups walk a fixed chain of places, a keyring error switches the keyring off for the rest of the session, and the config is redacted before logging.
- Backend configuration endpoint. `ConfigurationHandler` applies conditional saves, rewrites the `.env` file and reports which services are configured.
- Frontend pages:
  - the configuration page (secret fields, the copy kept in browser storage, the save body);
  - the setup wizard (a bounded step counter with required items);
  - the dashboard task panel;
  - the tasks page (active and completed cards, relative times);
  - the GitHub page (repository name, dataset slug, generate request).
- Response shaping. The two API clients and the `/api/status` route turn what a fetch gave into the object the page or the route returns.
- Configuration helpers. `getApiUrl`, `detectHttpsMode` and `nodeRejectUnauthorized`.

Where the source changes state in place, the model is a class with those fields:

- `WebSocketClient`, `CredentialsManager` and the keyring globals, `ConfigurationHandler`;
- each page component, with its React state as fields.

Their methods carry `modifies` clauses naming the fields they may change, and their `ensures` give the results and the new values of those fields in terms of the old state. The rest is datatypes and functions, each with lemmas stating what the source promises.

Nothing outside the program is modelled; it all arrives as parameters:

- what a `fetch` or `response.json()` gave;
- the clock;
- the keyring's contents and which of its calls raise;
- the config file, the process environment and the lines of `.env`.

JSON values are a datatype in which `undefined` is `None`, so two JavaScript behaviours are stated explicitly:

- member access, `||` and truthiness;
- the dropping of `undefined` members by `JSON.stringify`.

The model states several behaviours of the code as written:

- A health component without an entry gives an `undefined` flag. The spread then removes that key from the status answer (`StatusRoute.MissingComponentDropsFlag`).
- The dashboard panel never clears `humanTasksLoading`, so its human-in-loop tab always shows the spinner (`UnifiedTaskManager.UnifiedTaskManager.HumanTabAlwaysLoading`).
- The loaded-variables steps of `get_neo4j_credentials` and `get_openapi_key` ask for keys the environment loader never produces, so they never supply a value (`Credentials.EnvVarsNeverSupplyNeo4j`, `Credentials.EnvVarsNeverSupplyOpenApi`).
- A `null` body that the code then reads throws V8's "Cannot read properties of null" error, and that message is what the caller reports.

## Model

| member | source | states |
|---|---|---|
| `WebSocket.StripHttpScheme` | frontend/src/components/chat/websocket.ts:74 | removes exactly one leading `https://` or `http://`, otherwise nothing |
| `WebSocket.WebSocketUrlShape` | frontend/src/components/chat/websocket.ts:55-93 | the URL is `ws://` or `wss://` plus a host plus `/ws`; an https page gets `wss`; outside development a browser uses the page's own host |
| `WebSocket.GeneratedId` | frontend/src/components/chat/websocket.ts:130 | a generated id is `msg_` followed by digits whose decimal value is the clock reading |
| `WebSocket.Normalize` | frontend/src/components/chat/websocket.ts:129-136 | a normalised message always has an id and a role, and a timestamp whenever the clock gives one |
| `WebSocket.NormalizeFields` | frontend/src/components/chat/websocket.ts:129-136 | present fields are copied unchanged; an absent id becomes exactly `GeneratedId` of the receipt time, and the other absent fields `system`, `""`, the receipt time, `false` and `undefined` |
| `WebSocket.NormalizeRoundTrip` | frontend/src/components/chat/websocket.ts:129-136 | a message with every field present normalises to itself at any time, so normalising is idempotent |
| `WebSocket.Classify` | frontend/src/components/chat/websocket.ts:139-150 | error iff the error flag is set; task_update iff a system role with task data; system iff a system role without it; otherwise message |
| `WebSocket.FrameClassification` | frontend/src/components/chat/websocket.ts:130-150 | on raw frames: error wins; a missing role counts as `system`; any other role gives `message` |
| `WebSocket.FrameEvent` | frontend/src/components/chat/websocket.ts:118-167 | a parse failure gives one error event without a message; a frame gives the event of its classified, normalised message |
| `WebSocket.ClientIdAfter` | frontend/src/components/chat/websocket.ts:123-126 | the session id changes only on a frame with raw role `system` and a truthy `data.client_id`, and then becomes that id |
| `WebSocket.IndexOfListener` | frontend/src/components/chat/websocket.ts:309 | `indexOf`: -1 iff absent, otherwise the first position holding the listener |
| `WebSocket.RemoveFirstOccurrence` | frontend/src/components/chat/websocket.ts:305-314 | removing takes out one occurrence, the first, and keeps the order of the rest; an absent listener changes nothing |
| `WebSocket.Calls` | frontend/src/components/chat/websocket.ts:323-329 | one call per listener, in list order, each with the event |
| `WebSocket.CallsCount` | frontend/src/components/chat/websocket.ts:323-329 | a listener registered k times is called k times |
| `WebSocket.Dispatch` | frontend/src/components/chat/websocket.ts:319-346 | the listeners of the event's own type, then the `message` listeners for any type but `message` |
| `WebSocket.DispatchCount` | frontend/src/components/chat/websocket.ts:319-346 | a message event reaches each message listener once per registration; other events reach own-type listeners and every message listener |
| `WebSocket.CloseStep` | frontend/src/components/chat/websocket.ts:184-193 | a reconnect is scheduled iff auto-reconnect is on and attempts are below the budget, and only then is the count incremented |
| `WebSocket.ConsecutiveCloses` | frontend/src/components/chat/websocket.ts:184-193 | n closes schedule min(n, budget left) reconnects and never take the count past the budget; none when auto-reconnect is off |
| `WebSocket.ConnectedIffStatus` | frontend/src/components/chat/websocket.ts:351-371 | `isConnected()` iff `getStatus()` is `connected`; no socket iff `disconnected` |
| `WebSocket.OutboundFrame` | frontend/src/components/chat/websocket.ts:269-274 | the frame carries the session id, or `unknown` when there is none |
| `WebSocket.WebSocketClient.constructor` | frontend/src/components/chat/websocket.ts:38-50 | no socket, zero attempts, no session id, no listeners, the given URL or the derived one |
| `WebSocket.WebSocketClient.EmitEvent` | frontend/src/components/chat/websocket.ts:319-346 | the delivery log grows by exactly the dispatch of the event; nothing else changes |
| `WebSocket.WebSocketClient.CallEach` | frontend/src/components/chat/websocket.ts:323-329 | the `forEach` loop appends one call per listener in order, whether or not the listener throws |
| `WebSocket.WebSocketClient.Connect` | frontend/src/components/chat/websocket.ts:98-101 | a new socket in state CONNECTING, or nothing changes when the constructor throws |
| `WebSocket.WebSocketClient.OnReadyStateChange` | frontend/src/components/chat/websocket.ts:361-369 | only the socket's ready state changes; the client runs no code |
| `WebSocket.WebSocketClient.OnOpen` | frontend/src/components/chat/websocket.ts:104-115 | attempts reset to 0 and one `connected` event is dispatched |
| `WebSocket.WebSocketClient.OnMessage` | frontend/src/components/chat/websocket.ts:118-168 | the session id is updated as `ClientIdAfter` says, and exactly the one `FrameEvent` is dispatched |
| `WebSocket.WebSocketClient.OnClose` | frontend/src/components/chat/websocket.ts:171-194 | one `disconnected` event with code and reason; the socket is dropped; the reconnect decision follows `CloseStep` |
| `WebSocket.WebSocketClient.OnError` | frontend/src/components/chat/websocket.ts:197-211 | one error event with the connection-error message; no other state changes |
| `WebSocket.WebSocketClient.Disconnect` | frontend/src/components/chat/websocket.ts:222-229 | with a socket: auto-reconnect off and the socket dropped; without one nothing changes, so a scheduled reconnect still happens |
| `WebSocket.WebSocketClient.SendMessage` | frontend/src/components/chat/websocket.ts:255-289 | true iff the socket is OPEN and `send` does not throw; then exactly one frame is sent; every false emits one error event and sends nothing |
| `WebSocket.WebSocketClient.SendTextMessage` | frontend/src/components/chat/websocket.ts:234-236 | a send of type `text`; a closed socket dispatches one `Socket not connected` error event, a throwing `send` one `Failed to send message` event, and a successful send dispatches nothing |
| `WebSocket.WebSocketClient.SendCommand` | frontend/src/components/chat/websocket.ts:241-243 | a send of type `command`; a closed socket dispatches one `Socket not connected` error event, a throwing `send` one `Failed to send message` event, and a successful send dispatches nothing |
| `WebSocket.WebSocketClient.RequestTaskStatus` | frontend/src/components/chat/websocket.ts:248-250 | a send of type `task_status` carrying its `taskId`; a closed socket dispatches one `Socket not connected` error event, a throwing `send` one `Failed to send message` event, and a successful send dispatches nothing |
| `WebSocket.WebSocketClient.AddEventListener` | frontend/src/components/chat/websocket.ts:294-300 | appends to the type's list without removing duplicates; other lists unchanged |
| `WebSocket.WebSocketClient.RemoveEventListener` | frontend/src/components/chat/websocket.ts:305-314 | removes the first occurrence from the type's list only |
| `Credentials.InitialConfig` | backend/config/credentials_manager.py:100-104 | the default config has an empty username, port 8080 and the default temporary directory |
| `Credentials.LoadConfig` | backend/config/credentials_manager.py:486-494 | a missing or unreadable file reads as `{"huggingface_username": ""}`; otherwise its contents |
| `Credentials.MaskKeysMasks` | backend/config/credentials_manager.py:508-510 | masking keeps the keys, masks exactly the listed keys present, and leaves the rest |
| `Credentials.RedactHidesCredentials` | backend/config/credentials_manager.py:503-512 | the logged copy shows `*****` for each of the six sensitive keys present and everything else unchanged |
| `Credentials.RedactForLog` | backend/config/credentials_manager.py:503-510 | the loop over the sensitive keys computes the redacted copy and leaves the caller's config alone |
| `Credentials.KeyringWrites` | backend/config/credentials_manager.py:284-287 | `set_password` per pair in order, stopping at the first that raises; reports whether all went through |
| `Credentials.ConfigWrites` | backend/config/credentials_manager.py:291-293 | assigns each pair into the config in order |
| `Credentials.SecretsLandSomewhere` | backend/config/credentials_manager.py:283-298 | every saved secret is afterwards in the keyring or the config; the config gets none of them or all of them |
| `Credentials.ReadKeyring` | backend/config/credentials_manager.py:162-172 | no read without the keyring; a read of a failing key raises; otherwise the stored value or `None` |
| `Credentials.SecretChainIsFirstTruthy` | backend/config/credentials_manager.py:161-183 | the token chain gives the first truthy of keyring, config, loaded variables, and a falsy value only when none is truthy |
| `Credentials.AllThree` | backend/config/credentials_manager.py:365-371 | a source is accepted iff uri, username and password are all truthy |
| `Credentials.EnvVarsNeverSupplyNeo4j` | backend/config/credentials_manager.py:362-371 | with the loader's variables the loaded-variables step never supplies Neo4j credentials |
| `Credentials.EnvVarsNeverSupplyOpenApi` | backend/config/credentials_manager.py:233-236 | with the loader's variables the OpenAPI chain never takes the loaded-variables value |
| `Credentials.Neo4jLookup` | backend/config/credentials_manager.py:308-400 | the result is either absent or complete (all three truthy) |
| `Credentials.Neo4jFromKeyring` | backend/config/credentials_manager.py:329-346 | the keyring step supplies credentials only when all three reads went through and are truthy |
| `Credentials.Neo4jKeyringReads` | backend/config/credentials_manager.py:329-346 | no read without the keyring; after a raising read no further read happens |
| `Credentials.Neo4jPrecedence` | backend/config/credentials_manager.py:308-400 | the first complete source in the order OS environment, keyring, config, loaded variables, `.env` wins |
| `Credentials.OpenAiKeyLookup` | backend/config/credentials_manager.py:426-484 | a returned key is truthy; `.env` is flagged as its source only when it supplied it |
| `Credentials.OpenAiKeyPrecedence` | backend/config/credentials_manager.py:431-479 | the key is the first truthy of OS `OPENAI_API_KEY`, loaded variables, keyring, config, `.env` |
| `Credentials.ExtractedUsername` | backend/config/credentials_manager.py:109-127 | the loaded username is written iff a loaded token exists, the config has no username and the loaded one is truthy; other keys are kept |
| `Credentials.EnsureExists` | backend/config/credentials_manager.py:97-107 | an existing file is left alone; a missing one gets the default config |
| `Credentials.KeyringStatus.constructor` | backend/config/credentials_manager.py:13-14 | both globals start false |
| `Credentials.KeyringStatus.CheckKeyring` | backend/config/credentials_manager.py:16-63 | the first call records the probe; later calls return the recorded answer without probing |
| `Credentials.CredentialsManager.constructor` | backend/config/credentials_manager.py:82-95 | ensures the file, copies a loaded username, checks the keyring and adopts its answer |
| `Credentials.CredentialsManager.SaveConfig` | backend/config/credentials_manager.py:496-527 | logs the redacted copy, then writes the unredacted config when writable |
| `Credentials.CredentialsManager.Latch` | backend/config/credentials_manager.py:167-172 | both the instance flag and the global fall to false |
| `Credentials.CredentialsManager.StoreSecrets` | backend/config/credentials_manager.py:135-148 | the keyring and config afterwards are those `SaveSecrets` gives |
| `Credentials.CredentialsManager.SaveHuggingFaceCredentials` | backend/config/credentials_manager.py:129-153 | the username always goes to the config; the token to the keyring or the config; the log gains the redacted new config; returns true |
| `Credentials.CredentialsManager.SaveOpenApiKey` | backend/config/credentials_manager.py:186-208 | the key goes to the keyring or under `openapi_key` in the config; the log gains the redacted new config; returns true |
| `Credentials.CredentialsManager.SaveOpenAiKey` | backend/config/credentials_manager.py:402-424 | the key goes to the keyring or under `openai_key` in the config; the log gains the redacted new config; returns true |
| `Credentials.CredentialsManager.SaveNeo4jCredentials` | backend/config/credentials_manager.py:277-306 | the three settings go to the keyring, or all three to the config together; the log gains the redacted new config |
| `Credentials.CredentialsManager.GetServerPort` | backend/config/credentials_manager.py:240-243 | the stored port, or 8080 when there is none |
| `Credentials.CredentialsManager.SaveServerPort` | backend/config/credentials_manager.py:245-255 | succeeds iff the text is an integer, and then stores that integer and logs the redacted new config; otherwise nothing changes |
| `Credentials.CredentialsManager.GetTempDir` | backend/config/credentials_manager.py:257-260 | the stored directory, or the default |
| `Credentials.CredentialsManager.SaveTempDir` | backend/config/credentials_manager.py:262-275 | succeeds iff the directory could be created, and then stores the path and logs the redacted new config |
| `Credentials.CredentialsManager.ReadSecret` | backend/config/credentials_manager.py:162-172 | one keyring read; a raise drops the keyring for the session |
| `Credentials.CredentialsManager.GetHuggingFaceCredentials` | backend/config/credentials_manager.py:155-184 | the config's username (default `""`) and the token chain's value; a raising keyring read drops the keyring flag of the manager and of the module |
| `Credentials.CredentialsManager.GetOpenApiKey` | backend/config/credentials_manager.py:210-238 | the chain keyring, config, loaded variables under `openapi_key`; a raising keyring read drops both keyring flags |
| `Credentials.CredentialsManager.GetNeo4jCredentials` | backend/config/credentials_manager.py:308-400 | the result is `Neo4jLookup` over the reads `Neo4jReadsFor` gives: none when the OS environment supplies all three, otherwise uri, username, password up to the first raise; both keyring flags fall exactly when one of those reads raised |
| `Credentials.CredentialsManager.GetOpenAiKey` | backend/config/credentials_manager.py:426-484 | the result of `OpenAiKeyLookup` over the keyring read `OpenAiKeyringRead` makes (only when neither environment holds a key); a key found only in `.env` is exported to the process environment; both keyring flags fall exactly when that read raised |
| `ConfigurationApi.SplitLine` | backend/api/configuration_handler.py:55-62 | blank and `#` lines are skipped; otherwise the stripped line is split at its first `=`; a line without `=` is dropped |
| `ConfigurationApi.ParseLinesLastWins` | backend/api/configuration_handler.py:53-62 | every key occurs once, with the value of its last usable line; keys without one are absent |
| `ConfigurationApi.ReadEnv` | backend/api/configuration_handler.py:53-62 | the reading loop builds exactly `ParseLines` of the file's lines |
| `ConfigurationApi.Serialize` | backend/api/configuration_handler.py:68-70 | one `key=value` line per entry, in dict order |
| `ConfigurationApi.WriteEnv` | backend/api/configuration_handler.py:68-70 | the writing loop produces exactly `Serialize` of the dict |
| `ConfigurationApi.ParseSerializeRoundTrip` | backend/api/configuration_handler.py:53-70 | writing a dict with unique, well-formed entries and reading it back gives the same dict |
| `ConfigurationApi.RewriteKeepsOthers` | backend/api/configuration_handler.py:64-65 | `GITHUB_TOKEN` maps to the new token; every other key keeps its value; an existing `GITHUB_TOKEN` keeps its place |
| `ConfigurationApi.SavesFor` | backend/api/configuration_handler.py:29-45 | exactly these calls and no others, in the order Hugging Face, OpenAI, Neo4j: a Hugging Face save as `homework_user` iff the token is truthy, an OpenAI save iff the key is truthy, a Neo4j save iff all three are truthy |
| `ConfigurationApi.StatusFrom` | backend/api/configuration_handler.py:92-108 | each flag is the truthiness of its lookup; `missing_configs` is `["huggingface_token"]` exactly when no token was found |
| `ConfigurationApi.StatusLookupsFlags` | backend/api/configuration_handler.py:81-110 | whatever the keyring does, the Hugging Face flag follows its chain, a truthy process `OPENAI_API_KEY` and a complete Neo4j trio in the process environment always count as configured, and the former leaves the environment unchanged |
| `ConfigurationApi.StatusLookupsWithoutKeyring` | backend/api/configuration_handler.py:81-110 | without the keyring no read raises and the report depends only on the config, the loaded variables, the process environment and `.env` |
| `ConfigurationApi.ConfigurationHandler.constructor` | backend/api/configuration_handler.py:22-23 | holds the given credentials manager and `.env` file |
| `ConfigurationApi.ConfigurationHandler.Save` | backend/api/configuration_handler.py:31-45 | one save call leaves config file, keyring and log as `ApplySave` gives: the manager's save for that call, with one redacted log entry |
| `ConfigurationApi.ConfigurationHandler.RunSaves` | backend/api/configuration_handler.py:28-45 | the config file, keyring and log end as `ApplySaves` of the calls, applied one after the other |
| `ConfigurationApi.ConfigurationHandler.UpdateConfiguration` | backend/api/configuration_handler.py:25-79 | config file, keyring and log end as `ApplySaves` of `SavesFor`; then `.env` is rewritten when a GitHub token is given; an `.env` error gives HTTP 500 after the saves |
| `ConfigurationApi.ApplySaveLogged` | backend/config/credentials_manager.py:496-512 | one save appends exactly one log entry, and that entry shows `*****` for every credential key present |
| `ConfigurationApi.SavesLogAppends` | backend/api/configuration_handler.py:28-45 | the saves keep the earlier log and append one entry per call |
| `ConfigurationApi.SavesLogRedacted` | backend/config/credentials_manager.py:502-512 | no entry the saves append shows a credential: every credential key present reads `*****` |
| `ConfigurationApi.ConfigurationHandler.GetConfigurationStatus` | backend/api/configuration_handler.py:81-110 | the report, the process environment and both keyring flags are those of `StatusLookups`, run over the old state: Hugging Face, OpenAI, then Neo4j over the environment the OpenAI lookup left, each keyring read seeing the flag the reads before it left |
| `ConfigurationPage.SecretFieldsSensitive` | frontend/src/app/configuration/page.tsx:137 | the two tokens, the OpenAI key and the Neo4j password are sensitive |
| `ConfigurationPage.PlainFieldsNotSensitive` | frontend/src/app/configuration/page.tsx:108 | the Neo4j URI, the Neo4j username and the server port are not sensitive |
| `ConfigurationPage.MergeSavedLookup` | frontend/src/app/configuration/page.tsx:104-117 | unsaved fields keep their value; saved plain fields overwrite even when empty; saved sensitive fields overwrite only when non-empty; extra keys are copied in |
| `ConfigurationPage.MergeKeepsFieldOrder` | frontend/src/app/configuration/page.tsx:104-115 | the form's fields keep their positions and new keys come after them |
| `ConfigurationPage.MergeSavedState` | frontend/src/app/configuration/page.tsx:104-117 | the `forEach` loop computes exactly `MergeSaved` |
| `ConfigurationPage.InputChangeEffects` | frontend/src/app/configuration/page.tsx:125-142 | only the edited field changes; the stored copy equals the new form except that a sensitive edited field is stored empty |
| `ConfigurationPage.SavePayloadRules` | frontend/src/app/configuration/page.tsx:150-169 | each token is sent iff non-empty; the Neo4j trio is sent together iff all three are filled; the port is never sent |
| `ConfigurationPage.BuildSaveBody` | frontend/src/app/configuration/page.tsx:150-169 | the conditional assignments compute exactly `SavePayload` |
| `ConfigurationPage.SanitizedFields` | frontend/src/app/configuration/page.tsx:190-208 | after a save the four secrets read empty and every other field is unchanged |
| `ConfigurationPage.UpdatedNamesListed` | frontend/src/app/configuration/page.tsx:219-222 | the "Updated:" list names a service iff its flag is set, and is empty iff no flag is set |
| `ConfigurationPage.UpdatedNamesOrdered` | frontend/src/app/configuration/page.tsx:219-222 | the list keeps the order Hugging Face, GitHub, OpenAI, Neo4j |
| `ConfigurationPage.NewStatus` | frontend/src/app/configuration/page.tsx:48-90 | every path that sets marks marks Hugging Face, GitHub and OpenAI; Neo4j only from a truthy `neo4j_configured` |
| `ConfigurationPage.DeployedFields` | frontend/src/app/configuration/page.tsx:264-266 | each returned value when non-empty, else `bolt://localhost:7687`, `neo4j` and `""`; an empty uri or username gives the fallback |
| `ConfigurationPage.DeployCompletesNeo4j` | frontend/src/app/configuration/page.tsx:262-267 | after a deployment the next save sends the Neo4j fields iff a password was returned |
| `ConfigurationPage.UpdatedToast` | frontend/src/app/configuration/page.tsx:214-226 | one toast iff some service is flagged, and it reads `Updated: ` followed by the flagged names joined with `, ` |
| `ConfigurationPage.SaveToasts` | frontend/src/app/configuration/page.tsx:180-235 | a saved answer gives `Configuration saved successfully` then `UpdatedToast`; a refusal gives exactly one error with the server's message, or `Failed to save configuration` when it is empty; a throw gives exactly `Error saving configuration` |
| `ConfigurationPage.ConfigurationPage.constructor` | frontend/src/app/configuration/page.tsx:24-35 | the initial form with its defaults, no marks, not loading |
| `ConfigurationPage.ConfigurationPage.LoadConfigurationStatus` | frontend/src/app/configuration/page.tsx:43-94 | the marks become `NewStatus` when it gives some; setup is recorded as completed on those paths; loading ends |
| `ConfigurationPage.ConfigurationPage.LoadSavedFormState` | frontend/src/app/configuration/page.tsx:96-123 | the stored copy that `HandleInputChange` and `ClearSecrets` write is read back and merged into the form; nothing stored leaves the form unchanged |
| `ConfigurationPage.ConfigurationPage.HandleInputChange` | frontend/src/app/configuration/page.tsx:125-142 | the form takes the value; storage takes `PersistedCopy` of the new form |
| `ConfigurationPage.ConfigurationPage.SaveSucceeded` | frontend/src/app/configuration/page.tsx:180-227 | storage and form lose their secrets, setup is completed, marks are reloaded, and the success toasts are appended |
| `ConfigurationPage.ConfigurationPage.ClearSecrets` | frontend/src/app/configuration/page.tsx:189-208 | storage and the form both become the sanitized form |
| `ConfigurationPage.ConfigurationPage.HandleSaveConfiguration` | frontend/src/app/configuration/page.tsx:144-239 | success clears secrets and reloads marks; failure leaves the form alone and shows one error; loading ends on every path |
| `ConfigurationPage.ConfigurationPage.HandleDeployNeo4j` | frontend/src/app/configuration/page.tsx:241-278 | a successful deployment fills the Neo4j fields per `DeployedFields`; otherwise the form is unchanged and one error toast is shown |
| `SetupWizard.InitialRequirements` | frontend/src/components/setup-wizard.tsx:32-85 | six items in fixed order with distinct keys; only the Hugging Face token is required |
| `SetupWizard.WizardPayloadItem` | frontend/src/components/setup-wizard.tsx:162-167 | an item is sent, with its value, iff its value is non-empty or it is required |
| `SetupWizard.WizardPayloadAbsent` | frontend/src/components/setup-wizard.tsx:162-167 | a key that no item has is not sent |
| `SetupWizard.PayloadCarriesToken` | frontend/src/components/setup-wizard.tsx:162-167 | whatever the wizard posts carries the Hugging Face token |
| `SetupWizard.SetupWizard.constructor` | frontend/src/components/setup-wizard.tsx:29-85 | closed, not loading, step 0, the initial items |
| `SetupWizard.SetupWizard.CheckEnvironment` | frontend/src/components/setup-wizard.tsx:88-120 | missing items become required and none stops being required; opens when something is missing, the check failed, or it threw |
| `SetupWizard.SetupWizard.MarkRequired` | frontend/src/components/setup-wizard.tsx:100-105 | `required' = required or key in missing`, item by item; keys and values unchanged |
| `SetupWizard.SetupWizard.HandleInputChange` | frontend/src/components/setup-wizard.tsx:122-126 | only the given item's value changes; the step is unchanged |
| `SetupWizard.SetupWizard.HandleBack` | frontend/src/components/setup-wizard.tsx:136-140 | one step back except on the first step |
| `SetupWizard.SetupWizard.HandleSkip` | frontend/src/components/setup-wizard.tsx:128-134 | one step forward, or a save on the last step, whatever the item holds |
| `SetupWizard.SetupWizard.HandleNext` | frontend/src/components/setup-wizard.tsx:142-155 | an empty required item changes nothing; otherwise like skip |
| `SetupWizard.SetupWizard.SaveConfiguration` | frontend/src/components/setup-wizard.tsx:157-193 | posts `WizardPayload`; the dialog closes only on an ok response; loading ends on every path |
| `UnifiedTaskManager.StatusBadge` | frontend/src/components/dashboard/unified-task-manager.tsx:112-128 | completed; in_progress, running, pending; paused; failed, cancelled; anything else shows the raw status |
| `UnifiedTaskManager.CancelOfferedIffInProgress` | frontend/src/components/dashboard/unified-task-manager.tsx:227 | the cancel button appears exactly on rows badged In Progress |
| `UnifiedTaskManager.ProgressLabel` | frontend/src/components/dashboard/unified-task-manager.tsx:216 | `Failed` for a negative progress, else the progress followed by `%` |
| `UnifiedTaskManager.ProgressLabelFailedIffNegative` | frontend/src/components/dashboard/unified-task-manager.tsx:216 | the label is `Failed` iff the progress is negative |
| `UnifiedTaskManager.ProgressWidth` | frontend/src/components/dashboard/unified-task-manager.tsx:212-213 | a failed task shows a full bar; otherwise the progress |
| `UnifiedTaskManager.VisibleTasks` | frontend/src/components/dashboard/unified-task-manager.tsx:203 | the first five tasks, in list order |
| `UnifiedTaskManager.DateFormAt` | frontend/src/components/dashboard/unified-task-manager.tsx:23-37 | relative iff the date is less than 24 hours old |
| `UnifiedTaskManager.CancelById` | frontend/src/components/dashboard/unified-task-manager.tsx:237-239 | same length; matching tasks get status `cancelled` and progress -1; others unchanged |
| `UnifiedTaskManager.CancelByIdEffects` | frontend/src/components/dashboard/unified-task-manager.tsx:233-240 | a cancelled task keeps its other fields, shows Failed and no longer offers a cancel |
| `UnifiedTaskManager.CancelByIdIdempotent` | frontend/src/components/dashboard/unified-task-manager.tsx:237-239 | cancelling twice equals cancelling once |
| `UnifiedTaskManager.AfterFetch` | frontend/src/components/dashboard/unified-task-manager.tsx:91-94 | replaced by `data.tasks` or `[]` on success; kept on failure or rejection |
| `UnifiedTaskManager.UnifiedTaskManager.constructor` | frontend/src/components/dashboard/unified-task-manager.tsx:70-76 | empty lists, both loading, not refreshing |
| `UnifiedTaskManager.UnifiedTaskManager.LoadSystemTasks` | frontend/src/components/dashboard/unified-task-manager.tsx:88-100 | the system list becomes `AfterFetch`; its loading flag is cleared |
| `UnifiedTaskManager.UnifiedTaskManager.Refresh` | frontend/src/components/dashboard/unified-task-manager.tsx:143-160 | each list is replaced only by its own successful fetch; a rejection changes neither |
| `UnifiedTaskManager.UnifiedTaskManager.CancelTask` | frontend/src/components/dashboard/unified-task-manager.tsx:232-246 | success applies `CancelById` with a success toast; failure or rejection leaves the list |
| `UnifiedTaskManager.UnifiedTaskManager.SystemTab` | frontend/src/components/dashboard/unified-task-manager.tsx:184-261 | a spinner while loading, else at most five rows, else the empty notice |
| `UnifiedTaskManager.UnifiedTaskManager.HumanTabAlwaysLoading` | frontend/src/components/dashboard/unified-task-manager.tsx:268-273 | since nothing clears its loading flag, the human-in-loop tab always shows the spinner |
| `TasksPage.Active` | frontend/src/app/tasks/page.tsx:20-22 | exactly the pending and running tasks |
| `TasksPage.Completed` | frontend/src/app/tasks/page.tsx:24-26 | exactly the completed and failed tasks |
| `TasksPage.ActiveSplit` | frontend/src/app/tasks/page.tsx:20-22 | the active card keeps list order: the card of `a + b` is the card of `a` followed by the card of `b` |
| `TasksPage.CompletedSplit` | frontend/src/app/tasks/page.tsx:24-26 | the completed card keeps list order in the same way |
| `TasksPage.CardsOfOne` | frontend/src/app/tasks/page.tsx:20-26 | a single task is on the card its status selects and on no other |
| `TasksPage.CardsPartition` | frontend/src/app/tasks/page.tsx:20-26 | the two lists are disjoint; a cancelled task is in neither |
| `TasksPage.CardLabel` | frontend/src/app/tasks/page.tsx:214 | `Completed` iff the status is `completed`, else `Failed` |
| `TasksPage.CardLabelOfCompleted` | frontend/src/app/tasks/page.tsx:204-214 | a failed card says `Failed` and a completed card `Completed` |
| `TasksPage.MarkCancelled` | frontend/src/app/tasks/page.tsx:63-67 | the matching tasks get status `cancelled`; nothing else changes |
| `TasksPage.MarkCancelledLeavesActive` | frontend/src/app/tasks/page.tsx:59-67 | after a cancel the active card holds exactly the active tasks with another id |
| `TasksPage.RoundedSeconds` | frontend/src/app/tasks/page.tsx:99 | the nearest whole second, halves rounding up |
| `TasksPage.Bucket` | frontend/src/app/tasks/page.tsx:101-104 | seconds below 60, minutes below 3600, hours below 86400, else days, counts rounded down |
| `TasksPage.FormatRelativeTimeEdges` | frontend/src/app/tasks/page.tsx:95-105 | 59 s, 60 s, 3600 s and 86400 s show `59 seconds ago`, `1 minutes ago`, `1 hours ago`, `1 days ago`; a future date shows negative seconds |
| `TasksPage.BucketEdges` | frontend/src/app/tasks/page.tsx:101-104 | each bucket starts exactly at its threshold |
| `TasksPage.RoundingEdges` | frontend/src/app/tasks/page.tsx:96-99 | half a second rounds up; 1.5 s in the future shows -1 |
| `TasksPage.PollNeverReloads` | frontend/src/app/tasks/page.tsx:85-89 | the interval as written never reloads, whatever the current list |
| `TasksPage.PollReloads` | frontend/src/app/tasks/page.tsx:84-89 | the intended test: reload iff the current list has an active task |
| `TasksPage.PollDiscrepancy` | frontend/src/app/tasks/page.tsx:85-89 | with a running task the intended test reloads and the written one does not |
| `TasksPage.TasksPage.constructor` | frontend/src/app/tasks/page.tsx:15-17 | loading, no tasks, not refreshing |
| `TasksPage.TasksPage.LoadTasks` | frontend/src/app/tasks/page.tsx:29-45 | the list is replaced only by a successful response with tasks; otherwise one error toast; loading ends |
| `TasksPage.TasksPage.HandleRefreshTasks` | frontend/src/app/tasks/page.tsx:48-52 | the tasks and toasts `LoadTasks` gives for a successful, unsuccessful or throwing fetch, and both the refresh and loading flags cleared afterwards |
| `TasksPage.TasksPage.HandleCancelTask` | frontend/src/app/tasks/page.tsx:55-78 | success applies `MarkCancelled` and schedules a reload; failure leaves the list and shows one error |
| `TasksPage.TasksPage.PollTick` | frontend/src/app/tasks/page.tsx:85-89 | reloads iff the current list has an active task (the intended test) |
| `DashboardApi.CreateFetchOptions` | frontend/src/components/dashboard/simple-api.ts:12-27 | the caller's fields override the defaults and `headers` is the merged header set |
| `DashboardApi.CreateFetchOptionsHeader` | frontend/src/components/dashboard/simple-api.ts:22-25 | a caller header wins; otherwise `Content-Type` is `application/json` |
| `DashboardApi.DefaultFetchOptions` | frontend/src/components/dashboard/simple-api.ts:13-17 | without options, the only header is `Content-Type: application/json` |
| `DashboardApi.CancelTaskBody` | frontend/src/components/dashboard/simple-api.ts:85 | exactly `{taskId}` |
| `DashboardApi.ChatRequestBody` | frontend/src/components/dashboard/simple-api.ts:158-163 | the message with model, apiKey and agentMode defaulted to `gpt-3.5-turbo`, `USE_SERVER_KEY`, false |
| `DashboardApi.ChatRequestNeverEmpty` | frontend/src/components/dashboard/simple-api.ts:160-162 | the model and key sent are never empty |
| `DashboardApi.AgentTaskBody` | frontend/src/components/dashboard/simple-api.ts:197-202 | task type, message, the options or `{}`, and the key or `USE_SERVER_KEY` |
| `DashboardApi.AgentTaskKeyTruthy` | frontend/src/components/dashboard/simple-api.ts:200-201 | the key sent is always truthy |
| `DashboardApi.FetchStatus` | frontend/src/components/dashboard/simple-api.ts:29-52 | ok gives `Success` with the body; non-ok gives `API Error: s - t`; an unparsable ok body gives its parse error; a throw gives the error message or `Unknown error`; every failure is without data |
| `DashboardApi.FetchTasks` | frontend/src/components/dashboard/simple-api.ts:54-76 | the body is passed verbatim iff the response is ok and parses; non-ok gives `Failed to fetch tasks (s)` with data `{tasks: []}`; an unparsable ok body gives its parse error; a throw gives the error message or `Unknown error fetching tasks` |
| `DashboardApi.CancelTask` | frontend/src/components/dashboard/simple-api.ts:78-101 | the body is passed verbatim iff the response is ok and parses; non-ok gives `Failed to cancel task (s)` without data; an unparsable ok body gives its parse error; a throw gives the error message or `Unknown error cancelling task` |
| `DashboardApi.SendChatMessage` | frontend/src/components/dashboard/simple-api.ts:147-182 | the body is passed verbatim iff the response is ok and parses; non-ok gives `Failed to send message (s)` without data; an unparsable ok body gives its parse error; a throw gives the error message or `Unknown error sending message` |
| `DashboardApi.CreateAgentTask` | frontend/src/components/dashboard/simple-api.ts:187-221 | the body is passed verbatim iff the response is ok and parses; non-ok gives `Failed to create task (s)` without data; an unparsable ok body gives its parse error; a throw gives the error message or `Unknown error creating task` |
| `DashboardApi.FetchTaskStatus` | frontend/src/components/dashboard/simple-api.ts:226-246 | the body is passed verbatim iff the response is ok and parses; non-ok gives `Failed to fetch task status (s)` without data; an unparsable ok body gives its parse error; a throw gives the error message or `Unknown error fetching task status` |
| `DashboardApi.HumanTasksFromBody` | frontend/src/components/dashboard/simple-api.ts:114-134 | success iff the body is not `null` (a `null` body gives the read error); with truthy `success` and `data.tasks` the data and message (default `Success`) are passed through; otherwise the message is `Success` and the data is the top-level `tasks` wrapped when truthy, else `{tasks: []}` |
| `DashboardApi.FetchHumanInLoopTasks` | frontend/src/components/dashboard/simple-api.ts:103-142 | success iff the response is ok and its body readable; a parsed ok body is read as `HumanTasksFromBody` says; non-ok gives `API Error: s - t`; an unparsable ok body gives its parse error; a throw gives the error message or `Unknown error` |
| `DashboardApi.HumanTasksSources` | frontend/src/components/dashboard/simple-api.ts:116-134 | the tasks come from `data.tasks`, else the truthy top-level `tasks`, else `[]`, and both the message and the tasks are truthy (an empty array is truthy in JavaScript) |
| `TasksApi.TaskListFromBody` | frontend/src/app/tasks/simple-api.ts:36-50 | success iff `data.tasks` is truthy; message defaults to `Tasks loaded successfully`; else `No task data received from server` |
| `TasksApi.FetchTaskList` | frontend/src/app/tasks/simple-api.ts:23-58 | success iff an ok response's body holds a task list; non-ok gives `API Error: s - t`; a throw gives its message or `Unknown error` |
| `TasksApi.CancelRequestBody` | frontend/src/app/tasks/simple-api.ts:68-71 | exactly `{action: 'cancel', task_id}` |
| `TasksApi.CancelTask` | frontend/src/app/tasks/simple-api.ts:60-93 | ok gives success with the fixed message and the body as data; non-ok gives `API Error: s - t` |
| `TasksApi.NonOkReportedAlike` | frontend/src/app/tasks/simple-api.ts:28-33 | both functions report a non-ok status identically |
| `StatusRoute.ServiceFlagMeaning` | frontend/src/app/api/status/route.ts:45-51 | the flag is truthy iff the component entry exists and its status is not `down`; a missing entry leaves it undefined |
| `StatusRoute.Neo4jFlag` | frontend/src/app/api/status/route.ts:49 | true iff the status is exactly `up` |
| `StatusRoute.HealthData` | frontend/src/app/api/status/route.ts:44-56 | the eight health keys in order; a null body leaves `{}` |
| `StatusRoute.HealthDataFields` | frontend/src/app/api/status/route.ts:52-55 | `dataset_count` 0, `cache_size` `0 MB`, task counts defaulting to 0 |
| `StatusRoute.FallbackFlags` | frontend/src/app/api/status/route.ts:75-91 | the fallback reports success, Neo4j down and the other services up |
| `StatusRoute.Get` | frontend/src/app/api/status/route.ts:6-93 | non-ok mirrors the status; everything else answers 200; a throw or unreadable body gives the fallback |
| `StatusRoute.NonOkMirrored` | frontend/src/app/api/status/route.ts:16-24 | a non-ok status is answered with the same status and `{success: false, message: "Error: s t"}` |
| `StatusRoute.NoHealthUnchanged` | frontend/src/app/api/status/route.ts:29-69 | without health data the status object is answered unchanged |
| `StatusRoute.HealthFailureAddsNothing` | frontend/src/app/api/status/route.ts:29-61 | a thrown, non-ok or unreadable health check adds nothing |
| `StatusRoute.SpreadThenStringify` | frontend/src/app/api/status/route.ts:64-69 | a key set by the spread object takes its value, or vanishes when undefined; other keys keep theirs |
| `StatusRoute.MergedLookup` | frontend/src/app/api/status/route.ts:44-69 | health keys override the status object's; other keys keep the status object's values |
| `StatusRoute.MissingComponentDropsFlag` | frontend/src/app/api/status/route.ts:45-46 | with no GitHub component, `github_status` is missing from the answer |
| `GitHubPage.RepoNameUnchanged` | frontend/src/app/github/page.tsx:44-52 | an input without `github.com/` is used unchanged |
| `GitHubPage.RepoNameOfUrl` | frontend/src/app/github/page.tsx:47-51 | `https://github.com/<path>` asks for the path less one trailing slash |
| `GitHubPage.DatasetSlug` | frontend/src/app/github/page.tsx:65 | length is the name's plus 8, every character in `[a-z0-9-]`, ending in `-dataset` |
| `GitHubPage.SlugBodyIdempotent` | frontend/src/app/github/page.tsx:95 | slugging a slug changes nothing, and letter case does not matter |
| `GitHubPage.Source` | frontend/src/app/github/page.tsx:118-119 | the selected repository's full name, else the organisation name |
| `GitHubPage.GitHubPage.constructor` | frontend/src/app/github/page.tsx:25-31 | empty inputs, no repository, empty history |
| `GitHubPage.GitHubPage.ApplyRepoOutcome` | frontend/src/app/github/page.tsx:56-69 | a fetched repository is selected, its slug proposed and a success toast shown; a failure leaves both and shows the server message or the fallback |
| `GitHubPage.GitHubPage.HandleFetchRepository` | frontend/src/app/github/page.tsx:34-72 | a blank URL errors without a request; otherwise asks for `RepoName`, then selects the repository and proposes its slug, or shows the failure |
| `GitHubPage.GitHubPage.HandleFetchOrganization` | frontend/src/app/github/page.tsx:75-102 | a blank name errors without a request; success toasts the count and proposes the org's slug |
| `GitHubPage.GitHubPage.HandleGenerateDataset` | frontend/src/app/github/page.tsx:105-164 | needs a name and a source; the request carries the source type, name, dataset name and description; a started generation appends the source to the history, resets the form and shows the success toast; a refusal shows `Failed to create dataset: ` with the message or `Unknown error`; a throw or `null` body shows `Failed to generate dataset`; otherwise history and form are unchanged |
| `GitHubPage.GitHubPage.ApplyGenerateOutcome` | frontend/src/app/github/page.tsx:138-162 | the three outcomes of the generate call: started (history, form reset, success toast), refused (one error toast with the message), threw (one error toast); only a start changes history or form |
| `AppConfig.BaseUrl` | frontend/src/config.ts:7 | the configured URL when set and non-empty, else `http://localhost:8080` |
| `AppConfig.NodeRejectUnauthorized` | frontend/src/config.ts:27 | true iff `NODE_ENV` is `production` |
| `AppConfig.DetectHttpsMode` | frontend/src/config.ts:63-73 | true iff the page protocol is `https:` or the base starts with `https://` |
| `AppConfig.GetApiUrl` | frontend/src/config.ts:76-83 | the base less one trailing slash, then the path with exactly one leading slash added when missing |
| `AppConfig.GetApiUrlOfEmptyPath` | frontend/src/config.ts:76 | `getApiUrl()` is the base followed by one slash, with or without a trailing slash on the base |
| `AppConfig.GetApiUrlSlash` | frontend/src/config.ts:81 | a leading slash on the path makes no difference |
| `Text.DropTrailingSlash` | frontend/src/config.ts:77-79 | removes exactly one trailing `/`, else nothing |
| `Text.StripEmptyIffBlank` | backend/api/configuration_handler.py:56 | a line strips to nothing iff it is whitespace only |
| `Text.ParseIntOfIntToString` | backend/config/credentials_manager.py:249 | `int(str(n)) == n` for every integer |
| `Json.OrElse` | frontend/src/app/api/status/route.ts:54-55 | `v || fallback`: the value when truthy, else the fallback |
| `Json.StringifiedLookup` | frontend/src/app/api/status/route.ts:69 | a member survives serialisation iff present and not undefined |
| `Json.StringifiedLift` | frontend/src/app/api/status/route.ts:69 | serialising an object without undefined members gives it back |
| `Dicts.SpreadLookup` | frontend/src/app/api/status/route.ts:64-67 | `{...a, ...b}` looks a key up in `b` first, then in `a` |
| `Http.ErrorMessage` | frontend/src/components/dashboard/simple-api.ts:49 | an `Error`'s message, otherwise the fallback |

## Left out

- Transport and timers: the browser `WebSocket`, `setTimeout`/`setInterval` and promise resolution are left out. Callbacks are explicit methods and a scheduled reconnect is a ghost counter, because they are outside the program.
- Clocks and serialisation: `Date.now`, `toISOString`, `JSON.parse` and `JSON.stringify` of outbound frames are not modelled. Time is an integer or a clock record, and a parsed frame is an `Option`.
- Rendering: React rendering, console logging and toast dismissal are left out. Loading toasts and the informational `console.info` of `detectHttpsMode` are left out too. Only the toasts shown are recorded.
- Invalid dates are not modelled: `new Date` of an invalid string gives `NaN`, and `NaN` or non-integer numbers do not occur in the model. Times are whole milliseconds.
- Keyring plumbing is reduced to one `usable` flag: the `keyrings.alt` import, the runtime `pip install` and the plaintext fallback keyring. They are installation side effects.
- The `.env` regular-expression scans in `get_neo4j_credentials` and `get_openai_key` are an input map from variable name to captured text. Regular expressions are not modelled.
- `backend/utils/env_loader.py` and `dotenv` are not part of this model. The loaded variables are a parameter; `LoaderShaped` states only which keys they have.
- Credentials.CredentialsManager.constructor: a config directory that cannot be created makes `__init__` raise. The model continues with the file missing.
- Credentials.CredentialsManager.SaveServerPort: takes the port as text. Python's `int` also accepts underscores between digits and non-ASCII digits, which `Text.ParseInt` rejects.
- Credentials.CredentialsManager.SaveTempDir: whether `mkdir` succeeds is a parameter. File-system permissions (`chmod`) are left out.
- Stripping (`str.strip`, `trim`) removes the six ASCII whitespace characters space, `\t`, `\n`, `\r`, `\v` and `\f`. Python's `str.strip` also removes the separators `\x1c`–`\x1f`, which JavaScript's `trim` keeps, and both remove further Unicode spaces; none of these is modelled.
- Dataset slugs work on characters (code points). JavaScript's `replace(/[^a-z0-9]/g, '-')` works on UTF-16 code units, so a character outside the Basic Multilingual Plane becomes `--` in the source and `-` in the model, and `GitHubPage.DatasetSlug`'s length claim counts code points.
- Lower-casing in dataset slugs is ASCII only. Non-ASCII characters become `-` whatever their lower-case form, so characters such as the Kelvin sign, which lower-case to ASCII letters, are not modelled.
- ConfigurationApi.ParseSerializeRoundTrip: the `.env` file is its list of lines. A key or value containing `\n` or `\r` would split its line when Python reads the file back, so such entries are outside the lemma's precondition (`WellFormedEntry`).
- JavaScript orders integer-like object keys first. The association lists keep insertion order for every key.
- Header names are compared exactly. HTTP's case-insensitive header names and `Headers` objects passed as `options.headers` are not modelled.
- `GitHubPage.GitHubPage.HandleFetchOrganization` takes the organisation listing as a count. A body whose `length` is not a number, or a `null` body, is not modelled.
- `GitHubPage.GitHubPage.HandleFetchRepository` assumes the repository body has a `name`. A body without one throws in the source and is not modelled.
- `Credentials.LoadConfig`: a config file holding valid JSON that is not an object (a list, a string, a number) cannot be represented; the model reads every readable file as an object. In the source such a file loads, and the first `.get` on it raises.
- `ConfigurationPage.ConfigurationPage.HandleDeployNeo4j`: a successful deployment body without `data` throws in the source (frontend/src/app/configuration/page.tsx:258-266) after the toast `Neo4j deployed successfully!` has already been shown. It arrives as the `DeployThrew` outcome, which records only the error toast that follows.
- `TasksPage.TasksPage.LoadTasks`: the message in `Failed to load tasks: …` is taken as text. How JavaScript prints a non-string message there is not modelled.
- `WebSocket.WebSocketClient.EmitEvent`: a listener is an inert `ListenerId`. Listeners are assumed not to add or remove listeners, disconnect or send while an event is dispatched, so "nothing else changes" holds only for such listeners. In the source the `message` list is read only after the own-type listeners have run (frontend/src/components/chat/websocket.ts:334).
- `WebSocket.WebSocketClient.CallEach`: loops over the list as it was when dispatch began. The source's `forEach` runs over the live array (frontend/src/components/chat/websocket.ts:322-329, 336-343): a listener that removes itself makes it skip the next one, and a listener added during dispatch is not called. Neither is modelled.
- `WebSocket.WebSocketClient.OnClose`: decides the reconnect from `CloseStep` of the state before the `disconnected` event is dispatched. In the source that event is emitted (frontend/src/components/chat/websocket.ts:172-180) before the reconnect test (182-185), so a `disconnected` listener that calls `disconnect()` would turn auto-reconnect off and prevent the reconnect; the model still schedules it.
- Stale closures are not modelled: a cancel handler that replaces the list from the list it captured, or a reload racing a cancel. Each handler sees the current state; only the polling interval's stale capture, listed under Findings, is modelled.
- The deploy route, the forwarding API routes, the simulated pages and the test files are outside the modelled core.

## Findings

| source | as written | input that shows it | evidently intended | confidence | as-written member | corrected member |
|---|---|---|---|---|---|---|
| frontend/src/app/tasks/page.tsx:85-89 | the five-second interval tests `activeTasks` as captured by the mount-time effect (empty dependency list), which is the initial empty list, so it never reloads | a current list holding one task with status `running`: the written test gives false (`TasksPage.PollNeverReloads`, `TasksPage.PollDiscrepancy`) | reload every five seconds while the current list has a pending or running task | high, not executed | `TasksPage.PollReloadsAsWritten` | `TasksPage.PollReloads` |

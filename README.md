# Safety First device provisioning and decommissioning, in Dafny

This project models the three screens of the Safety First Android app that
bring hardware into a user's account and take it out again:

- **Add base station** (`AddDeviceActivity`). The start button is gated on two
  non-blank Wi-Fi inputs. The screen associates with the station's setup access
  point (`SafetyFirst-Setup…`) and POSTs `{uid, ssid, password}` to
  `http://192.168.4.1/setup`. It reads the MAC from the answer, falling back to
  `unknown_mac`, and writes `users/{uid}/baseStations/{mac}`. Whatever the
  answer, it unbinds the process and unregisters the network callback.
- **Add sensor** (`AddSensorActivity`). The button is gated on a non-blank
  location. The screen associates with `SafetyFirst-Sensor-Setup…` and POSTs
  `{baseMac}` to `/config_sensor`. It then normalises the answer:
  - A `sensors` array is the batch shape. Each element `{id, type}` is saved as
    `…/baseStations/{baseMac}/sensors/{id}`, located at `"<location> (<type>)"`.
  - Otherwise the answer is the legacy single shape. `sensorId` is required,
    `type` defaults to `Generic`, and the location is used as typed.
  - Saves are issued one by one, stop at the first element that throws, and are
    never rolled back.
- **Base-station detail** (`BaseDetailFragment`). This is the decommission
  protocol. After the confirmation dialog, the screen writes `command = RESET`
  to the station's document and posts a 10-second timer. The station's
  document is deleted when either of these happens:
  - the device writes `confirmDestroy = "yes"`, which the listener sees;
  - the user chooses "Force Remove", offered when the command write fails or
    the timer finds the button still disabled.

How the pieces are modelled:

- Each screen is a `class` whose fields are the state the Kotlin code mutates:
  - the button's enabled flag;
  - the callback registration and process binding;
  - the request bodies sent;
  - the store writes issued and not yet acknowledged;
  - the dialogs and timers outstanding.
- A ghost `State()` gathers those fields into a datatype.
- Each callback is a method whose `ensures` gives the new state as a function of
  the old one.
- For the fragment, that function is `Step` on an `Event`, and `Run` folds a
  trace of events. The protocol's guarantees, and the places where it
  misbehaves, are proved as lemmas over arbitrary traces and over concrete ones.
- The cloud store is a map from path segments to records. `set`, `update` and
  `delete` take effect when the store acknowledges them.
- The JSON library is modelled by its accessor semantics: `getString` coerces
  scalars, `optString` falls back, and `getJSONArray` and `getJSONObject`
  throw on a type mismatch.

Files:

- `wrappers.dfy`: `Option` and `Result`.
- `text.dfy`: Kotlin's `isBlank`, and decimal rendering of a status code with
  its parse-back.
- `json.dfy`: parsed JSON values and the accessors.
- `store.dfy`: document paths, store operations, and the shared store object.
- `exchange.dfy`: the HTTP outcome, the status-200 gate, the response read loop,
  and the failures that end a flow.
- `add_device.dfy`, `add_sensor.dfy`, `base_detail.dfy`: the three screens.

### Where the code does not do what its own comments and structure suggest (the model follows the code)

- **Sensor types are stored as the device sends them.** Nothing in the app
  changes the case of the type. A device that sends `flood` for a sensor at
  `Kitchen` gets the location `"Kitchen (flood)"` and the stored name
  `"Sensor (Kitchen (flood))"`. So the example `"Kitchen (Flood)"` in the
  comment at `AddSensorActivity.kt:172` holds only for a device that sends
  `Flood`. Shown by `AddSensor.KitchenBatch` and `AddSensor.KitchenStoredName`.
- **Decommission outcomes are not exclusive.** The comments at
  `BaseDetailFragment.kt:143` and `:146` present the timer as a fallback for
  when the listener has not removed the station. One would expect a removal to
  end either by confirmation or by timeout, not both. But the code never
  cancels the timer, and a confirmation does not close an open force-delete
  dialog:
  - `BaseDetail.ForceDeleteOfferedTwice`: a failed command write followed by
    the timeout shows two force-delete dialogs.
  - `BaseDetail.ConfirmAndForceBothDelete`: a late confirmation plus "Force
    Remove" issues two deletes.
  - `BaseDetail.DoubleBackNavigation`: when both of those deletes succeed
    before the back navigation has removed the fragment, the screen navigates
    back twice.
  - `BaseDetail.ForceOfferedAfterRemoval`: when the timer runs before the back
    navigation has removed the fragment, it offers force-delete for a document
    that is already gone.
  - `BaseDetail.ConfirmedRemoval`: the timer is still posted after a confirmed
    removal.
  - The last two need the second callback to run in the short window between
    the first delete's `popBackStack` (`BaseDetailFragment.kt:172-174`) and the
    fragment's removal. The comment at `:146` counts on that window being
    empty.
- **The binding is not always released.** The cleanup in the `finally` at
  `AddDeviceActivity.kt:200-205` is meant to undo the association whatever
  happens. When no user is signed in, `sendConfigToEsp` returns before its
  `try`, so the process stays bound and the callback registered
  (`AddDevice.AddDeviceActivity.OnAvailable`). With a user it is always
  released (`AddDevice.SendAlwaysReleases`).
- **The confirmation listener is not tied to a reset request.** It is
  registered whenever the view is created with a user and a MAC. A confirmation
  left on the document by an earlier attempt whose delete failed removes the
  station as soon as the screen is opened again
  (`BaseDetail.StaleConfirmationDeletesOnOpen`).

## Model

Source paths are relative to the repository root.

| member | source | states |
|---|---|---|
| JsonValue.OptStringAgreesWithGetString | app/src/main/java/com/example/remembersafetyfirst/AddDeviceActivity.kt:185 | `optString` returns what `getString` returns wherever that succeeds, and the fallback exactly where it would throw |
| Store.WriteIdempotent | app/src/main/java/com/example/remembersafetyfirst/AddDeviceActivity.kt:217-219 | setting the same document twice leaves the store as setting it once |
| Store.SensorPathIsNotABasePath | app/src/main/java/com/example/remembersafetyfirst/AddSensorActivity.kt:204-216 | a sensor document lies under its station's document and never coincides with any station document |
| Store.DeleteBaseKeepsSensors | app/src/main/java/com/example/remembersafetyfirst/BaseDetailFragment.kt:167-170 | deleting a station's document leaves each of its sensor documents, unchanged |
| Store.DocumentStore.Set | app/src/main/java/com/example/remembersafetyfirst/AddDeviceActivity.kt:219 | a committed `set` replaces the whole document at the path and nothing else |
| Store.DocumentStore.Update | app/src/main/java/com/example/remembersafetyfirst/BaseDetailFragment.kt:136 | an `update` succeeds exactly when the document exists, and then changes only that one field |
| Store.DocumentStore.Delete | app/src/main/java/com/example/remembersafetyfirst/BaseDetailFragment.kt:170 | a committed `delete` removes exactly that document |
| Exchange.AcceptedBody | app/src/main/java/com/example/remembersafetyfirst/AddDeviceActivity.kt:173-193 | the body is accepted exactly for a 200 response that parses; any other status raises its status error, an unparseable body a parse error, and a connection exception ends the block |
| Exchange.ReadResponse | app/src/main/java/com/example/remembersafetyfirst/AddDeviceActivity.kt:175-181 | the loop's text is the lines `readLine` returned, concatenated in order |
| Exchange.JoinedAddsNothing | app/src/main/java/com/example/remembersafetyfirst/AddSensorActivity.kt:153 | a character occurs in the response text exactly when it occurs in one of the lines: the line breaks are dropped and nothing is added |
| AddDevice.PayloadRoundTrip | app/src/main/java/com/example/remembersafetyfirst/AddDeviceActivity.kt:155-158 | the request body has exactly the keys `uid`, `ssid` and `password`, and the device reads back each value that was put in |
| AddDevice.MacOf | app/src/main/java/com/example/remembersafetyfirst/AddDeviceActivity.kt:185 | the MAC is `unknown_mac` when the answer has none, the string given otherwise, and agrees with a strict read wherever that succeeds |
| AddDevice.StatusMessageNamesCode | app/src/main/java/com/example/remembersafetyfirst/AddDeviceActivity.kt:192 | the error message is `ESP Error: ` followed by a rendering of the status from which the status parses back |
| AddDevice.RejectedStatusReported | app/src/main/java/com/example/remembersafetyfirst/AddDeviceActivity.kt:190-199 | a status other than 200 re-enables the button, issues no save, and records a status failure whose `ESP Error: ` message parses back to the device's status |
| AddDevice.SetupResult | app/src/main/java/com/example/remembersafetyfirst/AddDeviceActivity.kt:173-192 | an exchange yields a save exactly for an accepted 200 body whose uid and MAC are valid path segments; the save is the document `users/{uid}/baseStations/{mac}` holding exactly the MAC and `New Base Station`; otherwise the status, parse or transport failure is propagated |
| AddDevice.SavedStationKeyedByMac | app/src/main/java/com/example/remembersafetyfirst/AddDeviceActivity.kt:209-219 | a saved station's document key is the MAC stored inside it |
| AddDevice.SendAlwaysReleases | app/src/main/java/com/example/remembersafetyfirst/AddDeviceActivity.kt:194-205 | for a signed-in user every answer ends unbound and unregistered with one request sent; a failure re-enables the button and saves nothing, a success issues exactly the station's save |
| AddDevice.AddDeviceActivity.OnStartClick | app/src/main/java/com/example/remembersafetyfirst/AddDeviceActivity.kt:73-103 | a click starts the scan only when the button is enabled and both inputs are non-blank; without permission it asks for it, and otherwise nothing changes |
| AddDevice.AddDeviceActivity.OnPermissionResult | app/src/main/java/com/example/remembersafetyfirst/AddDeviceActivity.kt:49-61 | a grant starts the scan with the inputs as they are then; a refusal re-enables the button and records the denial |
| AddDevice.AddDeviceActivity.ConnectToDeviceAndConfigure | app/src/main/java/com/example/remembersafetyfirst/AddDeviceActivity.kt:106-147 | the button is disabled and the credentials captured; a rejected request re-enables the button, otherwise the callback is registered and waiting |
| AddDevice.AddDeviceActivity.OnUnavailable | app/src/main/java/com/example/remembersafetyfirst/AddDeviceActivity.kt:132-138 | no access point found: the request ends and the button is re-enabled with "not found" |
| AddDevice.AddDeviceActivity.OnAvailable | app/src/main/java/com/example/remembersafetyfirst/AddDeviceActivity.kt:124-151 | the process is bound to the network; with no signed-in user it stays bound and registered, otherwise the exchange runs and releases |
| AddDevice.AddDeviceActivity.SendConfigToEsp | app/src/main/java/com/example/remembersafetyfirst/AddDeviceActivity.kt:149-206 | the `try`/`catch`/`finally` of the exchange produces exactly the screen state `Sent` describes |
| AddDevice.AddDeviceActivity.TrySend | app/src/main/java/com/example/remembersafetyfirst/AddDeviceActivity.kt:154-193 | the request is recorded; the block fails exactly as `SetupResult` says, and issues its save otherwise |
| AddDevice.AddDeviceActivity.SaveDeviceToFirestore | app/src/main/java/com/example/remembersafetyfirst/AddDeviceActivity.kt:208-219 | a valid uid and MAC issue the station's `set`; an invalid one throws and issues nothing |
| AddDevice.AddDeviceActivity.OnSaveComplete | app/src/main/java/com/example/remembersafetyfirst/AddDeviceActivity.kt:220-227 | the oldest issued save lands and finishes the screen on success; on failure the store is unchanged and the button re-enabled |
| AddDevice.AddDeviceActivity.ResetUI | app/src/main/java/com/example/remembersafetyfirst/AddDeviceActivity.kt:234-237 | only the button's enabled flag changes, to enabled |
| AddSensor.PayloadRoundTrip | app/src/main/java/com/example/remembersafetyfirst/AddSensorActivity.kt:134-135 | the request body has the single key `baseMac`, holding the launch extra or the empty string without one |
| AddSensor.StatusMessageNamesCode | app/src/main/java/com/example/remembersafetyfirst/AddSensorActivity.kt:185 | the error message is `Sensor Error: ` followed by a rendering of the status from which it parses back |
| AddSensor.RejectedStatusReported | app/src/main/java/com/example/remembersafetyfirst/AddSensorActivity.kt:184-193 | a status other than 200 re-enables the button, issues no save, and records a status failure whose `Sensor Error: ` message parses back to the sensor's status |
| AddSensor.BatchFrom | app/src/main/java/com/example/remembersafetyfirst/AddSensorActivity.kt:166-176 | the batch loop issues one save per element in index order, each the element's own reading, and stops at the first element that throws, reporting that element's failure |
| AddSensor.Element | app/src/main/java/com/example/remembersafetyfirst/AddSensorActivity.kt:168-175 | one pass of the loop succeeds exactly when the element is an object with readable `id` and `type` and the ids make a valid path; it then yields that id and type at `"<location> (<type>)"`, and a non-object element raises its JSON error |
| AddSensor.BatchIsPrefix | app/src/main/java/com/example/remembersafetyfirst/AddSensorActivity.kt:166-176 | if the first elements read cleanly and the next throws (or the array ends), the saves are exactly those elements' and the failure is that next element's |
| AddSensor.Single | app/src/main/java/com/example/remembersafetyfirst/AddSensorActivity.kt:177-182 | the legacy shape fails without a readable `sensorId`; otherwise it saves one sensor at the location as typed, with the `type` the answer gives, or `Generic` when it gives none, exactly when the path is valid |
| AddSensor.Normalise | app/src/main/java/com/example/remembersafetyfirst/AddSensorActivity.kt:159-182 | a `sensors` key selects the batch loop over that array (a non-array raises its JSON error), its absence the single shape; without a failure every reported sensor is saved, and a failure leaves fewer saves than sensors reported |
| AddSensor.ProvisioningPlan | app/src/main/java/com/example/remembersafetyfirst/AddSensorActivity.kt:149-186 | a rejected status or body saves nothing and reports that failure |
| AddSensor.BatchShapeWins | app/src/main/java/com/example/remembersafetyfirst/AddSensorActivity.kt:159-182 | when `sensors` is present, removing or changing `sensorId` and `type` does not change what is saved |
| AddSensor.BatchSensorsNamedByType | app/src/main/java/com/example/remembersafetyfirst/AddSensorActivity.kt:172-175 | every batch sensor is located at `"<location> (<type>)"` and stored as `"Sensor (<location> (<type>))"` |
| AddSensor.MissingBaseMacSavesNothing | app/src/main/java/com/example/remembersafetyfirst/AddSensorActivity.kt:62 | launched without a base MAC, the screen still POSTs `{baseMac: ""}` but can save no sensor, whatever the answer |
| AddSensor.SavedSensorsLinkBack | app/src/main/java/com/example/remembersafetyfirst/AddSensorActivity.kt:202-216 | each save sits under its station's document, links back to that station's MAC, starts with status 0, and is named after its location |
| AddSensor.KitchenBatch | app/src/main/java/com/example/remembersafetyfirst/AddSensorActivity.kt:167-176 | a `flood`/`quake` batch at `Kitchen` saves `s1` at `Kitchen (flood)` and `s2` at `Kitchen (quake)`, without failure |
| AddSensor.KitchenStoredName | app/src/main/java/com/example/remembersafetyfirst/AddSensorActivity.kt:206-207 | that first sensor is stored under the name `Sensor (Kitchen (flood))` |
| AddSensor.SendAlwaysReleases | app/src/main/java/com/example/remembersafetyfirst/AddSensorActivity.kt:188-198 | for a signed-in user every answer ends unbound and unregistered; saves issued before a failure stand, and a failure re-enables the button |
| AddSensor.AddSensorActivity.constructor | app/src/main/java/com/example/remembersafetyfirst/AddSensorActivity.kt:62 | the base MAC is the launch extra, or empty without one |
| AddSensor.AddSensorActivity.OnScanClick | app/src/main/java/com/example/remembersafetyfirst/AddSensorActivity.kt:69-89 | a click starts provisioning only when the button is enabled and the location is non-blank; without permission it asks for it |
| AddSensor.AddSensorActivity.OnPermissionResult | app/src/main/java/com/example/remembersafetyfirst/AddSensorActivity.kt:49-56 | a grant starts provisioning; a refusal only records the denial and leaves the button as it was |
| AddSensor.AddSensorActivity.StartProvisioningProcess | app/src/main/java/com/example/remembersafetyfirst/AddSensorActivity.kt:91-125 | the button is disabled and the callback registered and waiting |
| AddSensor.AddSensorActivity.OnUnavailable | app/src/main/java/com/example/remembersafetyfirst/AddSensorActivity.kt:117-122 | no access point found: the request ends and the button is re-enabled |
| AddSensor.AddSensorActivity.OnAvailable | app/src/main/java/com/example/remembersafetyfirst/AddSensorActivity.kt:109-128 | the process is bound; with no signed-in user it stays bound, otherwise the exchange runs for the location typed at that moment |
| AddSensor.AddSensorActivity.SendConfigToSensor | app/src/main/java/com/example/remembersafetyfirst/AddSensorActivity.kt:127-199 | the `try`/`catch`/`finally` of the exchange produces exactly the screen state `Sent` describes |
| AddSensor.AddSensorActivity.TrySend | app/src/main/java/com/example/remembersafetyfirst/AddSensorActivity.kt:132-186 | the request is recorded, the saves of `ProvisioningPlan` are issued in order, and its failure is raised |
| AddSensor.AddSensorActivity.SaveBatch | app/src/main/java/com/example/remembersafetyfirst/AddSensorActivity.kt:166-176 | the `for` loop issues exactly the saves `BatchFrom` lists and raises its failure |
| AddSensor.AddSensorActivity.SaveSingle | app/src/main/java/com/example/remembersafetyfirst/AddSensorActivity.kt:177-182 | the legacy branch issues exactly the saves `Single` lists and raises its failure |
| AddSensor.AddSensorActivity.SaveSensorToFirestore | app/src/main/java/com/example/remembersafetyfirst/AddSensorActivity.kt:202-216 | valid path segments issue the sensor's `set`; an invalid one throws and issues nothing |
| AddSensor.AddSensorActivity.OnSaveComplete | app/src/main/java/com/example/remembersafetyfirst/AddSensorActivity.kt:217-224 | the oldest issued save lands and finishes the screen on success; on failure the store is unchanged and the button re-enabled |
| AddSensor.AddSensorActivity.ResetUI | app/src/main/java/com/example/remembersafetyfirst/AddSensorActivity.kt:231-234 | only the button's enabled flag changes, to enabled |
| BaseDetail.Context.Target | app/src/main/java/com/example/remembersafetyfirst/BaseDetailFragment.kt:127-133 | the station's document is known exactly when a user is signed in and a MAC was passed, and is `users/{uid}/baseStations/{mac}` |
| BaseDetail.RunKeepsValid | app/src/main/java/com/example/remembersafetyfirst/BaseDetailFragment.kt:53-56 | in every reachable state the listener is registered only while the view is alive and the document is known, and nothing is outstanding against an unknown document; every event handler of the fragment requires and keeps this invariant |
| BaseDetail.UnknownStationNeverWrites | app/src/main/java/com/example/remembersafetyfirst/BaseDetailFragment.kt:127-128 | without a user or a MAC, from any valid state, no update, timer, force-delete dialog or delete ever arises and the store is unchanged |
| BaseDetail.StepTouchesOnlyTheStation | app/src/main/java/com/example/remembersafetyfirst/BaseDetailFragment.kt:133-136 | no single event writes a document other than the station's own |
| BaseDetail.OnlyTheStationChanges | app/src/main/java/com/example/remembersafetyfirst/BaseDetailFragment.kt:167-170 | across any trace, every document other than the station's stays as it was |
| BaseDetail.SensorsSurviveDecommission | app/src/main/java/com/example/remembersafetyfirst/BaseDetailFragment.kt:167-170 | removing a station, by confirmation or by force, leaves each of its sensor documents unchanged |
| BaseDetail.NoResetWithoutConfirmation | app/src/main/java/com/example/remembersafetyfirst/BaseDetailFragment.kt:114-124 | without "Remove" in the confirmation dialog, no RESET update is issued or lands |
| BaseDetail.NoDeleteWithoutAckOrForce | app/src/main/java/com/example/remembersafetyfirst/BaseDetailFragment.kt:81-92 | without the device's confirmation or "Force Remove", no delete is issued and the station's document stays |
| BaseDetail.ButtonStaysDisabled | app/src/main/java/com/example/remembersafetyfirst/BaseDetailFragment.kt:131 | once disabled, the button comes back only through a new view, "Cancel" in the force-delete dialog, or a failed delete |
| BaseDetail.NoConfirmedDeleteAfterDestroy | app/src/main/java/com/example/remembersafetyfirst/BaseDetailFragment.kt:191-195 | after the view is destroyed the listener stays removed, so only "Force Remove" can issue a delete |
| BaseDetail.ResetRequested | app/src/main/java/com/example/remembersafetyfirst/BaseDetailFragment.kt:126-149 | open, tap remove, choose "Remove": the button is disabled, one RESET update is in flight, and one timer is posted |
| BaseDetail.DeviceAcknowledges | app/src/main/java/com/example/remembersafetyfirst/BaseDetailFragment.kt:79-92 | RESET lands, the device confirms, and the listener fires: it unregisters and issues one delete |
| BaseDetail.ConfirmedRemoval | app/src/main/java/com/example/remembersafetyfirst/BaseDetailFragment.kt:167-176 | after a confirmed removal the document is gone, the screen has navigated back once, and the timer is still posted |
| BaseDetail.TimeoutOffersForceDelete | app/src/main/java/com/example/remembersafetyfirst/BaseDetailFragment.kt:144-149 | with no answer from the device, the timer offers force-delete and nothing is deleted |
| BaseDetail.ForceChoiceAfterTimeout | app/src/main/java/com/example/remembersafetyfirst/BaseDetailFragment.kt:158-163 | "Force Remove" then a successful delete removes the document and navigates back; "Cancel" only re-enables the button |
| BaseDetail.ForceDeleteOfferedTwice | app/src/main/java/com/example/remembersafetyfirst/BaseDetailFragment.kt:137-149 | a failed RESET write followed by the timeout shows two force-delete dialogs |
| BaseDetail.LateConfirmationThenForce | app/src/main/java/com/example/remembersafetyfirst/BaseDetailFragment.kt:152-165 | a confirmation arriving while the force-delete dialog is open, followed by "Force Remove", leaves two deletes in flight |
| BaseDetail.ConfirmAndForceBothDelete | app/src/main/java/com/example/remembersafetyfirst/BaseDetailFragment.kt:144-149 | from a reset request, timeout then late confirmation then "Force Remove" issues two deletes |
| BaseDetail.DoubleBackNavigation | app/src/main/java/com/example/remembersafetyfirst/BaseDetailFragment.kt:171-176 | both of those deletes succeeding before the back navigation has removed the fragment navigates back twice |
| BaseDetail.ForceOfferedAfterRemoval | app/src/main/java/com/example/remembersafetyfirst/BaseDetailFragment.kt:144-149 | the uncancelled timer, running before the back navigation has removed the fragment, offers to force-delete a document that a confirmed removal already deleted |
| BaseDetail.StaleConfirmationDeletesOnOpen | app/src/main/java/com/example/remembersafetyfirst/BaseDetailFragment.kt:71-92 | a confirmation left on the document deletes the station as soon as the view is created, with no tap |
| BaseDetail.BaseDetailFragment.OnCreateView | app/src/main/java/com/example/remembersafetyfirst/BaseDetailFragment.kt:35-69 | a new view has an enabled button, and the listener is registered when the document is known |
| BaseDetail.BaseDetailFragment.ListenForDeviceStatus | app/src/main/java/com/example/remembersafetyfirst/BaseDetailFragment.kt:71-76 | the listener is registered exactly when a user is signed in |
| BaseDetail.BaseDetailFragment.OnDestroyView | app/src/main/java/com/example/remembersafetyfirst/BaseDetailFragment.kt:191-195 | destroying the view removes the confirmation listener |
| BaseDetail.BaseDetailFragment.OnRemoveClick | app/src/main/java/com/example/remembersafetyfirst/BaseDetailFragment.kt:64-66 | a tap on the enabled button of a live view opens the confirmation |
| BaseDetail.BaseDetailFragment.ConfirmRemoveBase | app/src/main/java/com/example/remembersafetyfirst/BaseDetailFragment.kt:114-124 | the confirmation dialog is shown only while the fragment is added |
| BaseDetail.BaseDetailFragment.OnConfirmChoice | app/src/main/java/com/example/remembersafetyfirst/BaseDetailFragment.kt:119-122 | "Remove" executes the removal, "Cancel" changes nothing but closing the dialog |
| BaseDetail.BaseDetailFragment.ExecuteRemoveBase | app/src/main/java/com/example/remembersafetyfirst/BaseDetailFragment.kt:126-150 | with a known document: the button is disabled, one RESET update issued and one timer posted; otherwise nothing changes |
| BaseDetail.BaseDetailFragment.OnCommandWriteDone | app/src/main/java/com/example/remembersafetyfirst/BaseDetailFragment.kt:136-140 | an accepted update of an existing document sets `command` to `RESET`; any failure offers force-delete |
| BaseDetail.BaseDetailFragment.OnTimer | app/src/main/java/com/example/remembersafetyfirst/BaseDetailFragment.kt:144-149 | the timer offers force-delete exactly when the fragment is added and the button still disabled |
| BaseDetail.BaseDetailFragment.ShowForceDeleteOption | app/src/main/java/com/example/remembersafetyfirst/BaseDetailFragment.kt:152-165 | one more force-delete dialog is shown, unless the fragment is no longer added |
| BaseDetail.BaseDetailFragment.OnSnapshot | app/src/main/java/com/example/remembersafetyfirst/BaseDetailFragment.kt:76-95 | a successful snapshot with `confirmDestroy == "yes"` unregisters the listener and issues a delete; an error ends the listener; anything else changes nothing; the screen stays valid |
| BaseDetail.BaseDetailFragment.OnForceChoice | app/src/main/java/com/example/remembersafetyfirst/BaseDetailFragment.kt:158-163 | "Force Remove" issues a delete, "Cancel" re-enables the button |
| BaseDetail.BaseDetailFragment.DeleteBaseDocument | app/src/main/java/com/example/remembersafetyfirst/BaseDetailFragment.kt:167-170 | one more delete of the station's document is in flight |
| BaseDetail.BaseDetailFragment.OnDeleteDone | app/src/main/java/com/example/remembersafetyfirst/BaseDetailFragment.kt:171-182 | success removes the station's document and, while added, navigates back; failure, while added, re-enables the button |

## Left out

- Timestamps: the `dateAdded` field of both saved records is not modelled.
- JSON text parsing: the response text becomes an abstract `Body`, either a
  parsed object or unparseable. Request bodies are objects, not rendered text.
- JsonValue.GetString and JsonValue.OptString: for a nested array or object,
  `getString` and `optString` return the JSON text, but the model reads it as a
  failure and falls back. This reaches `AddDevice.MacOf` (a nested `mac` gives
  `unknown_mac` in the model) and the type `AddSensor.Single` saves (a nested
  `type` gives `Generic`). The key does not hold a nested value in any answer
  the screens expect.
- Writing the HTTP request: connect/read timeouts and stream errors are all the
  single `Throws` outcome. The base-station screen sets both timeouts.
- AddSensor.SendAlwaysReleases: holds only for answers that arrive. The sensor
  screen sets only a connect timeout, so a sensor that accepts the connection
  and never answers blocks the coroutine, and the `finally` never runs.
- Exchange.ReadResponse: the read loop is modelled on its own. The two flows
  take the parsed body directly, because turning the text into JSON is not
  modelled.
- Toasts, status-text strings and the progress bar. Only the button's enabled
  flag and the failure that would be reported are kept.
- The fragment's presentation: the title, the realtime sensor list
  (`startRealtimeMonitoring` and its adapter), and the add-sensor button that
  launches the sensor screen.
- AddSensor.AddSensorActivity.StartProvisioningProcess: a `SecurityException`
  from `requestNetwork` is not caught on the sensor screen, so the app would
  crash. The model covers only the request being accepted.
- Store.ValidId: a `/` inside an id is always treated as refused. The store
  refuses an id with one `/` (one extra segment). It accepts an id adding two
  segments, which then addresses a deeper document. An id passed to
  `document(...)` with a leading or trailing `/` is also accepted and addresses
  the plain id. That covers the uid and MAC at `AddDeviceActivity.kt:217-218`
  and the sensor id at `AddSensorActivity.kt:216`. On the sensor screen the
  uid and base MAC are put into a collection path by string interpolation
  (`AddSensorActivity.kt:204`), where a leading or trailing `/` makes `//`
  and the store refuses the path, as the model does.
- On the detail screen, an empty uid or MAC throws outside any `try` and
  crashes the app. The model treats both as plain path segments.
- `confirmDestroy`: on the device's document it is only compared with the
  string `yes`. A value of another type would make the snapshot's `getString`
  throw inside the listener; that case is not modelled.
- Lifecycle timing:
  - `isAdded` is a flag set by view creation and cleared by `Detach`.
  - `context != null` is taken to coincide with it.
  - `popBackStack` is counted; the fragment's own removal afterwards is a later
    `DestroyView`/`Detach` event.
- The signed-in user: on the detail screen it is fixed for the screen's
  lifetime. On the two activities it is a parameter of `onAvailable`.
- Repeated network callbacks: the platform delivers at most one `onAvailable`
  or `onUnavailable` per request, and later ones are ignored.
- Threading: coroutine dispatchers and `runOnUiThread` hops are not modelled;
  each flow runs sequentially.
- Store behaviour:
  - Writes take effect when acknowledged. Offline queuing and latency
    compensation are not modelled, so the listener sees acknowledged state only.
  - Whether the store accepts a write is a parameter.
  - The device's confirmation is the only write by another client.
  - A snapshot listener that reports an error receives nothing more; the model
    ends the listener there, though `confirmListener` is not removed.
- The SDK-version branch of the permission set: a single "permitted" flag
  stands for it.
- The access-point name prefixes (`SafetyFirst-Setup`,
  `SafetyFirst-Sensor-Setup`) and the device URLs: matching a network is the
  platform's job, so the network arrives as a parameter of `onAvailable`, and
  the POST is an outcome value.

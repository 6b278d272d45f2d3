/**
 * The "add sensor" screen: gate the scan button on the location input,
 * associate with the sensor's setup access point, tell it which base station
 * it belongs to, and record the sensor or sensors it reports under that base
 * station.
 */
module AddSensor {
  import opened Wrappers
  import opened Text
  import opened JsonValue
  import opened Store
  import opened Exchange

  const DEFAULT_TYPE := "Generic"
  const STATUS_ERROR_PREFIX := "Sensor Error: "

  /** The start gate: the location holds something other than whitespace. */
  predicate MayStart(location: string) {
    !IsBlank(location)
  }

  /** The `baseMac` launch extra, or the empty string when the screen was started without it. */
  function LaunchMac(extra: Option<string>): string {
    extra.GetOr("")
  }

  /** The request body `{baseMac}`. */
  function Payload(baseMac: string): Object {
    map["baseMac" := JString(baseMac)]
  }

  /** The sensor reads back the base station's MAC, the empty string when the launch extra was missing, and nothing else. */
  lemma PayloadRoundTrip(extra: Option<string>)
    ensures Payload(LaunchMac(extra)).Keys == {"baseMac"}
    ensures extra.Some? ==> GetString(Payload(LaunchMac(extra)), "baseMac") == Success(extra.value)
    ensures extra.None? ==> GetString(Payload(LaunchMac(extra)), "baseMac") == Success("")
  {
  }

  /** The text of the exception a non-200 status raises. */
  function StatusMessage(code: int): string {
    STATUS_ERROR_PREFIX + IntToString(code)
  }

  /** The message names the status: the code can be read back from it. */
  lemma StatusMessageNamesCode(code: int)
    ensures StatusMessage(code)[..|STATUS_ERROR_PREFIX|] == STATUS_ERROR_PREFIX
    ensures ParseInt(StatusMessage(code)[|STATUS_ERROR_PREFIX|..]) == code
  {
    assert StatusMessage(code)[|STATUS_ERROR_PREFIX|..] == IntToString(code);
    IntToStringRoundTrip(code);
  }

  /** The location given to each sensor of a batch: `"<location> (<type>)"`. */
  function CombinedName(location: string, sensorType: string): string {
    location + " (" + sensorType + ")"
  }

  /** The display name stored with a sensor: `"Sensor (<location>)"`. */
  function StoredName(location: string): string {
    "Sensor (" + location + ")"
  }

  /** The arguments of one `saveSensorToFirestore` call. */
  datatype SensorSpec = SensorSpec(id: string, sensorType: string, location: string)

  /**
   * The saves one response leads to, in the order they are issued, and the
   * exception that stopped the flow, if any. Saves issued before the
   * exception stand.
   */
  datatype Plan = Plan(sensors: seq<SensorSpec>, failure: Option<Failure>)

  /** The sensor document (its `dateAdded` timestamp is not modelled). */
  function SensorRecord(baseMac: string, spec: SensorSpec): Record {
    map["name" := Str(StoredName(spec.location)),
        "location" := Str(spec.location),
        "type" := Str(spec.sensorType),
        "status" := Int(0),
        "value" := Real(0.0),
        "linkedBase" := Str(baseMac)]
  }

  function SensorWrite(uid: string, baseMac: string, spec: SensorSpec): Write {
    Write(SensorPath(uid, baseMac, spec.id), SensorRecord(baseMac, spec))
  }

  function Writes(uid: string, baseMac: string, specs: seq<SensorSpec>): (ws: seq<Write>)
    ensures |ws| == |specs|
    ensures forall k :: 0 <= k < |specs| ==> ws[k] == SensorWrite(uid, baseMac, specs[k])
  {
    seq(|specs|, k requires 0 <= k < |specs| => SensorWrite(uid, baseMac, specs[k]))
  }

  /** Building the collection path and the document reference succeeds. */
  predicate Saveable(uid: string, baseMac: string, sensorId: string) {
    ValidId(uid) && ValidId(baseMac) && ValidId(sensorId)
  }

  /** One pass of the batch loop: read element `i`, name it after its type, and issue its save. */
  function Element(uid: string, baseMac: string, items: seq<Json>, i: nat, location: string): (r: Result<SensorSpec, Failure>)
    requires i < |items|
    ensures GetObject(items, i).Failure? ==> r == Failure(BadResponse(GetObject(items, i).error))
    ensures r.Success? <==>
      && GetObject(items, i).Success?
      && GetString(GetObject(items, i).value, "id").Success?
      && GetString(GetObject(items, i).value, "type").Success?
      && Saveable(uid, baseMac, GetString(GetObject(items, i).value, "id").value)
    ensures r.Success? ==>
      && r.value.id == GetString(GetObject(items, i).value, "id").value
      && r.value.sensorType == GetString(GetObject(items, i).value, "type").value
      && r.value.location == CombinedName(location, r.value.sensorType)
  {
    match GetObject(items, i)
    case Failure(e) => Failure(BadResponse(e))
    case Success(o) =>
      match GetString(o, "id")
      case Failure(e) => Failure(BadResponse(e))
      case Success(id) =>
        match GetString(o, "type")
        case Failure(e) => Failure(BadResponse(e))
        case Success(sensorType) =>
          if Saveable(uid, baseMac, id) then Success(SensorSpec(id, sensorType, CombinedName(location, sensorType)))
          else Failure(InvalidPath)
  }

  /**
   * The batch loop from element `from` on: one save per element in index
   * order, up to the first element that throws.
   */
  function BatchFrom(uid: string, baseMac: string, items: seq<Json>, from: nat, location: string): (p: Plan)
    requires from <= |items|
    ensures |p.sensors| <= |items| - from
    ensures forall k :: 0 <= k < |p.sensors| ==> Element(uid, baseMac, items, from + k, location) == Success(p.sensors[k])
    ensures p.failure.None? ==> |p.sensors| == |items| - from
    ensures p.failure.Some? ==>
      && from + |p.sensors| < |items|
      && Element(uid, baseMac, items, from + |p.sensors|, location).Failure?
      && p.failure == Some(Element(uid, baseMac, items, from + |p.sensors|, location).error)
    decreases |items| - from
  {
    if from == |items| then Plan([], None)
    else match Element(uid, baseMac, items, from, location)
      case Failure(f) => Plan([], Some(f))
      case Success(spec) =>
        var rest := BatchFrom(uid, baseMac, items, from + 1, location);
        Plan([spec] + rest.sensors, rest.failure)
  }

  /** The legacy single-sensor shape: `sensorId` is required, `type` defaults to `Generic`, the location is not suffixed. */
  function Single(uid: string, baseMac: string, body: Object, location: string): (p: Plan)
    ensures GetString(body, "sensorId").Failure? ==> p == Plan([], Some(BadResponse(GetString(body, "sensorId").error)))
    ensures p.failure.None? ==> |p.sensors| == 1 && p.sensors[0].location == location
    ensures p.failure.None? ==> GetString(body, "sensorId") == Success(p.sensors[0].id)
    ensures p.failure.None? && GetString(body, "type").Success? ==> p.sensors[0].sensorType == GetString(body, "type").value
    ensures p.failure.None? && GetString(body, "type").Failure? ==> p.sensors[0].sensorType == DEFAULT_TYPE
    ensures GetString(body, "sensorId").Success? ==>
      (p.failure.None? <==> Saveable(uid, baseMac, GetString(body, "sensorId").value))
    ensures p.failure.Some? ==> p.sensors == []
  {
    match GetString(body, "sensorId")
    case Failure(e) => Plan([], Some(BadResponse(e)))
    case Success(id) =>
      var sensorType := OptString(body, "type", DEFAULT_TYPE);
      if Saveable(uid, baseMac, id) then Plan([SensorSpec(id, sensorType, location)], None)
      else Plan([], Some(InvalidPath))
  }

  /** The response normaliser: a `sensors` key selects the batch shape, whatever else the body holds. */
  function Normalise(uid: string, baseMac: string, body: Object, location: string): (p: Plan)
    ensures "sensors" in body && GetArray(body, "sensors").Success? ==>
      p == BatchFrom(uid, baseMac, GetArray(body, "sensors").value, 0, location)
    ensures "sensors" in body && GetArray(body, "sensors").Failure? ==>
      p == Plan([], Some(BadResponse(GetArray(body, "sensors").error)))
    ensures "sensors" !in body ==> p == Single(uid, baseMac, body, location)
    ensures p.failure.None? && "sensors" in body ==> |p.sensors| == |GetArray(body, "sensors").value|
    ensures p.failure.None? && "sensors" !in body ==> |p.sensors| == 1
    ensures p.failure.Some? ==> |p.sensors| < if "sensors" in body && GetArray(body, "sensors").Success? then |GetArray(body, "sensors").value| else 1
  {
    if "sensors" in body then
      match GetArray(body, "sensors")
      case Failure(e) => Plan([], Some(BadResponse(e)))
      case Success(items) => BatchFrom(uid, baseMac, items, 0, location)
    else Single(uid, baseMac, body, location)
  }

  /** Status check, then normalisation. */
  function ProvisioningPlan(uid: string, baseMac: string, outcome: HttpOutcome, location: string): (p: Plan)
    ensures AcceptedBody(outcome).Failure? ==> p == Plan([], Some(AcceptedBody(outcome).error))
    ensures outcome.Response? && outcome.code != HTTP_OK ==> p == Plan([], Some(Status(outcome.code)))
  {
    match AcceptedBody(outcome)
    case Failure(f) => Plan([], Some(f))
    case Success(body) => Normalise(uid, baseMac, body, location)
  }

  /** When the batch key is present the single-shape fields are never read: removing or changing them changes nothing. */
  lemma BatchShapeWins(uid: string, baseMac: string, body: Object, location: string, sensorId: Json, sensorType: Json)
    requires "sensors" in body
    ensures Normalise(uid, baseMac, body, location) == Normalise(uid, baseMac, body - {"sensorId", "type"}, location)
    ensures Normalise(uid, baseMac, body, location)
         == Normalise(uid, baseMac, body["sensorId" := sensorId]["type" := sensorType], location)
  {
    assert GetArray(body - {"sensorId", "type"}, "sensors") == GetArray(body, "sensors");
    assert GetArray(body["sensorId" := sensorId]["type" := sensorType], "sensors") == GetArray(body, "sensors");
  }

  /** The batch loop issues exactly the saves of the elements before the first one that throws. */
  lemma {:induction false} BatchIsPrefix(uid: string, baseMac: string, items: seq<Json>, location: string, saved: seq<SensorSpec>)
    requires |saved| <= |items|
    requires forall k :: 0 <= k < |saved| ==> Element(uid, baseMac, items, k, location) == Success(saved[k])
    requires |saved| < |items| ==> Element(uid, baseMac, items, |saved|, location).Failure?
    ensures BatchFrom(uid, baseMac, items, 0, location).sensors == saved
    ensures BatchFrom(uid, baseMac, items, 0, location).failure
         == if |saved| == |items| then None else Some(Element(uid, baseMac, items, |saved|, location).error)
  {
    BatchFromIsPrefix(uid, baseMac, items, 0, location, saved);
  }

  lemma {:induction false} BatchFromIsPrefix(uid: string, baseMac: string, items: seq<Json>, from: nat, location: string, saved: seq<SensorSpec>)
    requires from + |saved| <= |items|
    requires forall k :: 0 <= k < |saved| ==> Element(uid, baseMac, items, from + k, location) == Success(saved[k])
    requires from + |saved| < |items| ==> Element(uid, baseMac, items, from + |saved|, location).Failure?
    ensures BatchFrom(uid, baseMac, items, from, location).sensors == saved
    ensures BatchFrom(uid, baseMac, items, from, location).failure
         == if from + |saved| == |items| then None else Some(Element(uid, baseMac, items, from + |saved|, location).error)
    decreases |saved|
  {
    if saved != [] {
      assert Element(uid, baseMac, items, from + 0, location) == Success(saved[0]);
      forall k | 0 <= k < |saved[1..]|
        ensures Element(uid, baseMac, items, from + 1 + k, location) == Success(saved[1..][k])
      {
        assert Element(uid, baseMac, items, from + (k + 1), location) == Success(saved[k + 1]);
      }
      BatchFromIsPrefix(uid, baseMac, items, from + 1, location, saved[1..]);
      assert [saved[0]] + saved[1..] == saved;
    }
  }

  /** Every sensor of a batch is located at `"<location> (<type>)"` and stored as `"Sensor (<location> (<type>))"`. */
  lemma BatchSensorsNamedByType(uid: string, baseMac: string, body: Object, location: string)
    requires "sensors" in body
    ensures forall s :: s in Normalise(uid, baseMac, body, location).sensors ==>
      && s.location == CombinedName(location, s.sensorType)
      && StoredName(s.location) == "Sensor (" + location + " (" + s.sensorType + "))"
  {
    var p := Normalise(uid, baseMac, body, location);
    forall s | s in p.sensors
      ensures s.location == CombinedName(location, s.sensorType)
    {
      var k :| 0 <= k < |p.sensors| && p.sensors[k] == s;
      var items := GetArray(body, "sensors").value;
      assert Element(uid, baseMac, items, 0 + k, location) == Success(s);
    }
  }

  /** Without the `baseMac` launch extra the request still goes out, but no sensor can be saved. */
  lemma MissingBaseMacSavesNothing(s: Screen, uid: string, outcome: HttpOutcome)
    ensures ProvisioningPlan(uid, LaunchMac(None), outcome, s.locationText).sensors == []
    ensures Sent(s, uid, LaunchMac(None), outcome).attempts == s.attempts + [Payload("")]
    ensures Sent(s, uid, LaunchMac(None), outcome).pendingSaves == s.pendingSaves
  {
  }

  /** Each saved sensor sits under its base station's document, keyed by its id, and links back to that station. */
  lemma SavedSensorsLinkBack(uid: string, baseMac: string, specs: seq<SensorSpec>)
    ensures forall w :: w in Writes(uid, baseMac, specs) ==>
      && |w.path| == 6
      && w.path[..4] == BasePath(uid, baseMac)
      && w.record["linkedBase"] == Str(w.path[3])
      && w.record["status"] == Int(0)
      && w.record["name"] == Str(StoredName(w.record["location"].s))
  {
  }

  /** One well-formed element of the `Kitchen` batch. */
  lemma KitchenElement(items: seq<Json>, i: nat, id: string, sensorType: string)
    requires i < |items| && items[i] == JObject(map["id" := JString(id), "type" := JString(sensorType)])
    requires ValidId(id)
    ensures Element("u1", "AA:BB:CC", items, i, "Kitchen")
         == Success(SensorSpec(id, sensorType, "Kitchen (" + sensorType + ")"))
  {
    var o := map["id" := JString(id), "type" := JString(sensorType)];
    assert "id" != "type";
    assert GetString(o, "id") == Success(id);
    assert GetString(o, "type") == Success(sensorType);
    assert ValidId("u1") && ValidId("AA:BB:CC");
    assert "Kitchen" + " (" == "Kitchen (";
  }

  /** Two sensors reported as `flood` and `quake` at `Kitchen`: the type is used as the device sends it. */
  lemma KitchenBatch()
    ensures var body := map["sensors" := JArray([
                            JObject(map["id" := JString("s1"), "type" := JString("flood")]),
                            JObject(map["id" := JString("s2"), "type" := JString("quake")])])];
      Normalise("u1", "AA:BB:CC", body, "Kitchen")
        == Plan([SensorSpec("s1", "flood", "Kitchen (flood)"), SensorSpec("s2", "quake", "Kitchen (quake)")], None)
  {
    var items := [JObject(map["id" := JString("s1"), "type" := JString("flood")]),
                  JObject(map["id" := JString("s2"), "type" := JString("quake")])];
    KitchenElement(items, 0, "s1", "flood");
    KitchenElement(items, 1, "s2", "quake");
    assert "Kitchen (" + "flood" + ")" == "Kitchen (flood)";
    assert "Kitchen (" + "quake" + ")" == "Kitchen (quake)";
    BatchIsPrefix("u1", "AA:BB:CC", items, "Kitchen",
                  [SensorSpec("s1", "flood", "Kitchen (flood)"), SensorSpec("s2", "quake", "Kitchen (quake)")]);
  }

  /** The first sensor of that batch is stored under the name `Sensor (Kitchen (flood))`. */
  lemma KitchenStoredName()
    ensures SensorRecord("AA:BB:CC", SensorSpec("s1", "flood", "Kitchen (flood)"))["name"] == Str("Sensor (Kitchen (flood))")
  {
    assert "Sensor (" + "Kitchen (flood)" + ")" == "Sensor (Kitchen (flood))";
  }

  /** The screen's state, field by field. */
  datatype Screen = Screen(
    locationText: string,
    buttonEnabled: bool,
    awaitingPermission: bool,
    registered: bool,              // the network callback is registered with the platform
    awaitingNetwork: bool,         // the network request has not been answered yet
    bound: Option<Network>,        // the network the process is bound to
    attempts: seq<Object>,         // request bodies POSTed to the sensor
    pendingSaves: seq<Write>,      // store writes issued and not yet acknowledged
    finished: bool,
    lastFailure: Option<Failure>)

  /** The effect of `startProvisioningProcess`. */
  function ScanStarted(s: Screen): Screen {
    s.(buttonEnabled := false, registered := true, awaitingNetwork := true)
  }

  /**
   * The effect of `sendConfigToSensor` for a signed-in user: the `try` block
   * for the location typed at that moment, then the `finally` cleanup.
   */
  function Sent(s: Screen, uid: string, baseMac: string, outcome: HttpOutcome): Screen {
    var plan := ProvisioningPlan(uid, baseMac, outcome, s.locationText);
    var tried := s.(registered := false, bound := None,
                    attempts := s.attempts + [Payload(baseMac)],
                    pendingSaves := s.pendingSaves + Writes(uid, baseMac, plan.sensors));
    if plan.failure.Some? then tried.(buttonEnabled := true, lastFailure := plan.failure) else tried
  }

  /**
   * Whatever the sensor answers, the exchange ends with the process unbound
   * and the callback unregistered. Saves issued before a failure stand: they
   * are not rolled back.
   */
  lemma SendAlwaysReleases(s: Screen, uid: string, baseMac: string, outcome: HttpOutcome)
    ensures var r := Sent(s, uid, baseMac, outcome);
      var plan := ProvisioningPlan(uid, baseMac, outcome, s.locationText);
      && r.bound == None && !r.registered
      && r.attempts == s.attempts + [Payload(baseMac)]
      && r.pendingSaves == s.pendingSaves + Writes(uid, baseMac, plan.sensors)
      && (plan.failure.Some? ==> r.buttonEnabled && r.lastFailure == plan.failure)
      && (plan.failure.None? ==> r.buttonEnabled == s.buttonEnabled && r.lastFailure == s.lastFailure)
  {
  }

  /** A status other than 200 is the failure the screen reports, and the message it raises names that status. */
  lemma RejectedStatusReported(s: Screen, uid: string, baseMac: string, outcome: HttpOutcome)
    requires outcome.Response? && outcome.code != HTTP_OK
    ensures var r := Sent(s, uid, baseMac, outcome);
      && r.buttonEnabled && r.pendingSaves == s.pendingSaves
      && r.lastFailure.Some? && r.lastFailure.value.Status?
      && ParseInt(StatusMessage(r.lastFailure.value.code)[|STATUS_ERROR_PREFIX|..]) == outcome.code
  {
    StatusMessageNamesCode(outcome.code);
  }

  class AddSensorActivity {
    const db: DocumentStore
    const baseMac: string
    var locationText: string
    var buttonEnabled: bool
    var awaitingPermission: bool
    var registered: bool
    var awaitingNetwork: bool
    var bound: Option<Network>
    var attempts: seq<Object>
    var pendingSaves: seq<Write>
    var finished: bool
    var lastFailure: Option<Failure>

    ghost function State(): Screen
      reads this
    {
      Screen(locationText, buttonEnabled, awaitingPermission, registered, awaitingNetwork, bound,
             attempts, pendingSaves, finished, lastFailure)
    }

    /** `extra` is the `baseMac` the screen was launched with. */
    constructor (db: DocumentStore, extra: Option<string>)
      ensures this.db == db && baseMac == LaunchMac(extra)
      ensures State() == Screen("", true, false, false, false, None, [], [], false, None)
    {
      this.db := db;
      baseMac := extra.GetOr("");
      locationText := "";
      buttonEnabled, awaitingPermission := true, false;
      registered, awaitingNetwork, bound := false, false, None;
      attempts, pendingSaves := [], [];
      finished, lastFailure := false, None;
    }

    method EditLocation(text: string)
      modifies this
      ensures State() == old(State()).(locationText := text)
    {
      locationText := text;
    }

    /** A click on the scan button; `permitted` is whether the permissions are already granted. */
    method OnScanClick(permitted: bool)
      modifies this
      ensures !old(buttonEnabled) || !MayStart(old(locationText)) ==> State() == old(State())
      ensures old(buttonEnabled) && MayStart(old(locationText)) && !permitted ==>
        State() == old(State()).(awaitingPermission := true)
      ensures old(buttonEnabled) && MayStart(old(locationText)) && permitted ==>
        State() == ScanStarted(old(State()))
    {
      if !buttonEnabled {
        return;
      }
      if MayStart(locationText) {
        if permitted {
          StartProvisioningProcess();
        } else {
          awaitingPermission := true;
        }
      }
    }

    /** The answer to the permission request; a refusal only informs the user. */
    method OnPermissionResult(granted: bool)
      modifies this
      ensures !old(awaitingPermission) ==> State() == old(State())
      ensures old(awaitingPermission) && granted ==> State() == ScanStarted(old(State()).(awaitingPermission := false))
      ensures old(awaitingPermission) && !granted ==>
        State() == old(State()).(awaitingPermission := false, lastFailure := Some(PermissionDenied))
    {
      if !awaitingPermission {
        return;
      }
      awaitingPermission := false;
      if granted {
        StartProvisioningProcess();
      } else {
        lastFailure := Some(PermissionDenied);
      }
    }

    method StartProvisioningProcess()
      modifies this
      ensures State() == ScanStarted(old(State()))
    {
      buttonEnabled := false;
      registered := true;
      awaitingNetwork := true;
    }

    /** The platform found no matching access point; it releases the request itself. */
    method OnUnavailable()
      modifies this
      ensures !old(awaitingNetwork) ==> State() == old(State())
      ensures old(awaitingNetwork) ==>
        State() == old(State()).(awaitingNetwork := false, registered := false, buttonEnabled := true,
                                 lastFailure := Some(DeviceNotFound))
    {
      if !awaitingNetwork {
        return;
      }
      awaitingNetwork := false;
      registered := false;
      lastFailure := Some(DeviceNotFound);
      ResetUI();
    }

    /** The platform associated `net`; `currentUser` is the signed-in user, `outcome` the sensor's answer. */
    method OnAvailable(net: Network, currentUser: Option<string>, outcome: HttpOutcome)
      modifies this
      ensures !old(awaitingNetwork) ==> State() == old(State())
      ensures old(awaitingNetwork) && currentUser.None? ==>
        State() == old(State()).(awaitingNetwork := false, bound := Some(net))
      ensures old(awaitingNetwork) && currentUser.Some? ==>
        State() == Sent(old(State()).(awaitingNetwork := false), currentUser.value, baseMac, outcome)
    {
      if !awaitingNetwork {
        return;
      }
      awaitingNetwork := false;
      bound := Some(net);
      if currentUser.None? {
        return;
      }
      SendConfigToSensor(currentUser.value, outcome);
    }

    method SendConfigToSensor(uid: string, outcome: HttpOutcome)
      modifies this
      ensures State() == Sent(old(State()), uid, baseMac, outcome)
    {
      var location := locationText;
      var failure := TrySend(uid, outcome, location);
      // catch
      if failure.Some? {
        lastFailure := failure;
        ResetUI();
      }
      // finally
      bound := None;
      registered := false;
    }

    /** The `try` block: POST the base MAC, check the status, normalise the response, issue the saves. */
    method TrySend(uid: string, outcome: HttpOutcome, location: string) returns (failure: Option<Failure>)
      modifies this
      ensures failure == ProvisioningPlan(uid, baseMac, outcome, location).failure
      ensures State() == old(State()).(
        attempts := old(attempts) + [Payload(baseMac)],
        pendingSaves := old(pendingSaves) + Writes(uid, baseMac, ProvisioningPlan(uid, baseMac, outcome, location).sensors))
    {
      attempts := attempts + [Payload(baseMac)];
      match outcome {
        case Throws =>
          failure := Some(Transport);
        case Response(code, body) =>
          if code != HTTP_OK {
            failure := Some(Status(code));
          } else {
            match body {
              case Malformed =>
                failure := Some(BadResponse(Unparseable));
              case Parsed(fields) =>
                if "sensors" in fields {
                  match GetArray(fields, "sensors") {
                    case Failure(e) =>
                      failure := Some(BadResponse(e));
                    case Success(items) =>
                      failure := SaveBatch(uid, items, location);
                  }
                } else {
                  failure := SaveSingle(uid, fields, location);
                }
            }
          }
      }
    }

    /** The `for` loop over the reported sensors: one save per element, stopping at the first that throws. */
    method SaveBatch(uid: string, items: seq<Json>, location: string) returns (failure: Option<Failure>)
      modifies this
      ensures failure == BatchFrom(uid, baseMac, items, 0, location).failure
      ensures State() == old(State()).(
        pendingSaves := old(pendingSaves) + Writes(uid, baseMac, BatchFrom(uid, baseMac, items, 0, location).sensors))
    {
      ghost var saved: seq<SensorSpec> := [];
      var i := 0;
      while i < |items|
        invariant 0 <= i <= |items|
        invariant |saved| == i
        invariant forall k :: 0 <= k < i ==> Element(uid, baseMac, items, k, location) == Success(saved[k])
        invariant State() == old(State()).(pendingSaves := old(pendingSaves) + Writes(uid, baseMac, saved))
      {
        var obj := GetObject(items, i);
        if obj.Failure? {
          failure := Some(BadResponse(obj.error));
          BatchIsPrefix(uid, baseMac, items, location, saved);
          return;
        }
        var id := GetString(obj.value, "id");
        if id.Failure? {
          failure := Some(BadResponse(id.error));
          BatchIsPrefix(uid, baseMac, items, location, saved);
          return;
        }
        var sensorType := GetString(obj.value, "type");
        if sensorType.Failure? {
          failure := Some(BadResponse(sensorType.error));
          BatchIsPrefix(uid, baseMac, items, location, saved);
          return;
        }
        var combinedName := CombinedName(location, sensorType.value);
        var saveFailure := SaveSensorToFirestore(uid, id.value, sensorType.value, combinedName);
        if saveFailure.Some? {
          failure := saveFailure;
          BatchIsPrefix(uid, baseMac, items, location, saved);
          return;
        }
        assert Writes(uid, baseMac, saved + [SensorSpec(id.value, sensorType.value, combinedName)])
            == Writes(uid, baseMac, saved) + [SensorWrite(uid, baseMac, SensorSpec(id.value, sensorType.value, combinedName))];
        saved := saved + [SensorSpec(id.value, sensorType.value, combinedName)];
        i := i + 1;
      }
      failure := None;
      BatchIsPrefix(uid, baseMac, items, location, saved);
    }

    /** The legacy branch: strict `sensorId`, lenient `type`, the location as typed. */
    method SaveSingle(uid: string, body: Object, location: string) returns (failure: Option<Failure>)
      modifies this
      ensures failure == Single(uid, baseMac, body, location).failure
      ensures State() == old(State()).(
        pendingSaves := old(pendingSaves) + Writes(uid, baseMac, Single(uid, baseMac, body, location).sensors))
    {
      var id := GetString(body, "sensorId");
      if id.Failure? {
        failure := Some(BadResponse(id.error));
        return;
      }
      var sensorType := OptString(body, "type", DEFAULT_TYPE);
      failure := SaveSensorToFirestore(uid, id.value, sensorType, location);
      assert Writes(uid, baseMac, [SensorSpec(id.value, sensorType, location)])
          == [SensorWrite(uid, baseMac, SensorSpec(id.value, sensorType, location))];
    }

    /** Issues the `set` of one sensor document; building its reference throws on an invalid id. */
    method SaveSensorToFirestore(uid: string, sensorId: string, sensorType: string, location: string)
      returns (failure: Option<Failure>)
      modifies this
      ensures Saveable(uid, baseMac, sensorId) ==> failure == None && State() == old(State()).(
        pendingSaves := old(pendingSaves) + [SensorWrite(uid, baseMac, SensorSpec(sensorId, sensorType, location))])
      ensures !Saveable(uid, baseMac, sensorId) ==> failure == Some(InvalidPath) && State() == old(State())
    {
      if Saveable(uid, baseMac, sensorId) {
        var path := SensorPath(uid, baseMac, sensorId);
        var record := map["name" := Str("Sensor (" + location + ")"),
                          "location" := Str(location),
                          "type" := Str(sensorType),
                          "status" := Int(0),
                          "value" := Real(0.0),
                          "linkedBase" := Str(baseMac)];
        pendingSaves := pendingSaves + [Write(path, record)];
        failure := None;
      } else {
        failure := Some(InvalidPath);
      }
    }

    /** The store acknowledges the oldest issued write: each success finishes the screen, each failure re-arms it. */
    method OnSaveComplete(accepted: bool)
      modifies this, db
      ensures old(pendingSaves) == [] ==> State() == old(State()) && db.docs == old(db.docs)
      ensures old(pendingSaves) != [] && accepted ==>
        && db.docs == Written(old(db.docs), old(pendingSaves)[0])
        && State() == old(State()).(pendingSaves := old(pendingSaves)[1..], finished := true)
      ensures old(pendingSaves) != [] && !accepted ==>
        && db.docs == old(db.docs)
        && State() == old(State()).(pendingSaves := old(pendingSaves)[1..], buttonEnabled := true,
                                    lastFailure := Some(SaveFailed))
    {
      if pendingSaves == [] {
        return;
      }
      var w := pendingSaves[0];
      pendingSaves := pendingSaves[1..];
      if accepted {
        db.Set(w);
        finished := true;
      } else {
        lastFailure := Some(SaveFailed);
        ResetUI();
      }
    }

    method ResetUI()
      modifies this
      ensures State() == old(State()).(buttonEnabled := true)
    {
      buttonEnabled := true;
    }
  }
}

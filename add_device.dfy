/**
 * The "add base station" screen: gate the start button on the Wi-Fi inputs,
 * associate with the base station's setup access point, POST the home
 * network credentials to it, and record the station under the signed-in
 * user once it answers with its MAC address.
 */
module AddDevice {
  import opened Wrappers
  import opened Text
  import opened JsonValue
  import opened Store
  import opened Exchange

  const UNKNOWN_MAC := "unknown_mac"
  const BASE_NAME := "New Base Station"
  const STATUS_ERROR_PREFIX := "ESP Error: "

  /** The start gate: both inputs hold something other than whitespace. */
  predicate MayStart(ssid: string, password: string) {
    !IsBlank(ssid) && !IsBlank(password)
  }

  /** The request body `{uid, ssid, password}`. */
  function Payload(uid: string, ssid: string, password: string): Object {
    map["uid" := JString(uid), "ssid" := JString(ssid), "password" := JString(password)]
  }

  /** The device reads back exactly the three values the screen put in, under exactly three keys. */
  lemma PayloadRoundTrip(uid: string, ssid: string, password: string)
    ensures Payload(uid, ssid, password).Keys == {"uid", "ssid", "password"}
    ensures GetString(Payload(uid, ssid, password), "uid") == Success(uid)
    ensures GetString(Payload(uid, ssid, password), "ssid") == Success(ssid)
    ensures GetString(Payload(uid, ssid, password), "password") == Success(password)
  {
  }

  /** The station's MAC as the response gives it, `unknown_mac` when it gives none. */
  function MacOf(body: Object): (mac: string)
    ensures "mac" !in body ==> mac == UNKNOWN_MAC
    ensures "mac" in body && body["mac"].JString? ==> mac == body["mac"].s
    ensures GetString(body, "mac").Success? ==> mac == GetString(body, "mac").value
  {
    OptString(body, "mac", UNKNOWN_MAC)
  }

  /** The base-station document (its `dateAdded` timestamp is not modelled). */
  function BaseRecord(mac: string): Record {
    map["macAddress" := Str(mac), "name" := Str(BASE_NAME)]
  }

  /** The text of the exception a non-200 status raises. */
  function StatusMessage(code: int): string {
    STATUS_ERROR_PREFIX + IntToString(code)
  }

  /** The message names the status: the code can be read back from it. */
  lemma StatusMessageNamesCode(code: int)
    ensures |StatusMessage(code)| > |STATUS_ERROR_PREFIX|
    ensures StatusMessage(code)[..|STATUS_ERROR_PREFIX|] == STATUS_ERROR_PREFIX
    ensures ParseInt(StatusMessage(code)[|STATUS_ERROR_PREFIX|..]) == code
  {
    assert StatusMessage(code)[|STATUS_ERROR_PREFIX|..] == IntToString(code);
    IntToStringRoundTrip(code);
  }

  /**
   * What one exchange with the device leads to: the store write to issue,
   * or the failure that ends the `try` block.
   */
  function SetupResult(uid: string, outcome: HttpOutcome): (r: Result<Write, Failure>)
    ensures r.Success? ==> outcome.Response? && outcome.code == HTTP_OK && outcome.body.Parsed?
    ensures r.Success? ==> var mac := MacOf(outcome.body.fields);
      && r.value.path == BasePath(uid, mac)
      && r.value.record.Keys == {"macAddress", "name"}
      && r.value.record["macAddress"] == Str(mac)
      && r.value.record["name"] == Str(BASE_NAME)
    ensures AcceptedBody(outcome).Failure? ==> r == Failure(AcceptedBody(outcome).error)
    ensures outcome.Response? && outcome.code != HTTP_OK ==> r == Failure(Status(outcome.code))
    ensures AcceptedBody(outcome).Success? ==>
      (r.Success? <==> ValidId(uid) && ValidId(MacOf(outcome.body.fields)))
  {
    match AcceptedBody(outcome)
    case Failure(f) => Failure(f)
    case Success(body) =>
      var mac := MacOf(body);
      if ValidId(uid) && ValidId(mac) then Success(Write(BasePath(uid, mac), BaseRecord(mac)))
      else Failure(InvalidPath)
  }

  /** The document key of a saved station is the MAC stored in it. */
  lemma SavedStationKeyedByMac(uid: string, outcome: HttpOutcome)
    requires SetupResult(uid, outcome).Success?
    ensures var w := SetupResult(uid, outcome).value;
      "macAddress" in w.record && w.path == BasePath(uid, w.record["macAddress"].s)
  {
  }

  /** The screen's state, field by field. */
  datatype Screen = Screen(
    ssidText: string,
    passText: string,
    buttonEnabled: bool,
    awaitingPermission: bool,
    callbackSsid: string,          // the credentials the network callback captured
    callbackPass: string,
    registered: bool,              // the network callback is registered with the platform
    awaitingNetwork: bool,         // the network request has not been answered yet
    bound: Option<Network>,        // the network the process is bound to
    attempts: seq<Object>,         // request bodies POSTed to the device
    pendingSaves: seq<Write>,      // store writes issued and not yet acknowledged
    finished: bool,
    lastFailure: Option<Failure>)

  /** The effect of `connectToDeviceAndConfigure`: disable the button, then request the network. */
  function ScanStarted(s: Screen, ssid: string, password: string, rejected: bool): Screen {
    var scanning := s.(buttonEnabled := false, callbackSsid := ssid, callbackPass := password);
    if rejected then scanning.(buttonEnabled := true, lastFailure := Some(RequestRejected))
    else scanning.(registered := true, awaitingNetwork := true)
  }

  /** The effect of `sendConfigToEsp` for a signed-in user: the `try` block, then the `finally` cleanup. */
  function Sent(s: Screen, uid: string, outcome: HttpOutcome): Screen {
    var tried := s.(registered := false, bound := None,
                    attempts := s.attempts + [Payload(uid, s.callbackSsid, s.callbackPass)]);
    match SetupResult(uid, outcome)
    case Success(w) => tried.(pendingSaves := tried.pendingSaves + [w])
    case Failure(f) => tried.(buttonEnabled := true, lastFailure := Some(f))
  }

  /**
   * Whatever the device answers, the exchange ends with the process unbound
   * and the callback unregistered; a failure re-enables the button and issues
   * nothing, a success issues exactly the one save of the station.
   */
  lemma SendAlwaysReleases(s: Screen, uid: string, outcome: HttpOutcome)
    ensures var r := Sent(s, uid, outcome);
      && r.bound == None && !r.registered
      && r.attempts == s.attempts + [Payload(uid, s.callbackSsid, s.callbackPass)]
      && (SetupResult(uid, outcome).Failure? ==>
            r.buttonEnabled && r.lastFailure == Some(SetupResult(uid, outcome).error) && r.pendingSaves == s.pendingSaves)
      && (SetupResult(uid, outcome).Success? ==>
            && r.buttonEnabled == s.buttonEnabled
            && r.pendingSaves == s.pendingSaves + [Write(BasePath(uid, MacOf(outcome.body.fields)), BaseRecord(MacOf(outcome.body.fields)))])
  {
  }

  /** A status other than 200 is the failure the screen reports, and the message it raises names that status. */
  lemma RejectedStatusReported(s: Screen, uid: string, outcome: HttpOutcome)
    requires outcome.Response? && outcome.code != HTTP_OK
    ensures var r := Sent(s, uid, outcome);
      && r.buttonEnabled && r.pendingSaves == s.pendingSaves
      && r.lastFailure.Some? && r.lastFailure.value.Status?
      && ParseInt(StatusMessage(r.lastFailure.value.code)[|STATUS_ERROR_PREFIX|..]) == outcome.code
  {
    StatusMessageNamesCode(outcome.code);
  }

  class AddDeviceActivity {
    const db: DocumentStore
    var ssidText: string
    var passText: string
    var buttonEnabled: bool
    var awaitingPermission: bool
    var callbackSsid: string
    var callbackPass: string
    var registered: bool
    var awaitingNetwork: bool
    var bound: Option<Network>
    var attempts: seq<Object>
    var pendingSaves: seq<Write>
    var finished: bool
    var lastFailure: Option<Failure>

    ghost function State(): Screen
      reads this
    {
      Screen(ssidText, passText, buttonEnabled, awaitingPermission, callbackSsid, callbackPass,
             registered, awaitingNetwork, bound, attempts, pendingSaves, finished, lastFailure)
    }

    constructor (db: DocumentStore)
      ensures this.db == db
      ensures State() == Screen("", "", true, false, "", "", false, false, None, [], [], false, None)
    {
      this.db := db;
      ssidText, passText := "", "";
      buttonEnabled, awaitingPermission := true, false;
      callbackSsid, callbackPass := "", "";
      registered, awaitingNetwork, bound := false, false, None;
      attempts, pendingSaves := [], [];
      finished, lastFailure := false, None;
    }

    /** The user types into the two inputs. */
    method EditInputs(ssid: string, password: string)
      modifies this
      ensures State() == old(State()).(ssidText := ssid, passText := password)
    {
      ssidText, passText := ssid, password;
    }

    /**
     * A click on the start button. `permitted` is whether the scan permission
     * is already granted; `rejected` whether the network request throws
     * `SecurityException`. A disabled button does not deliver clicks.
     */
    method OnStartClick(permitted: bool, rejected: bool)
      modifies this
      ensures !old(buttonEnabled) || !MayStart(old(ssidText), old(passText)) ==> State() == old(State())
      ensures old(buttonEnabled) && MayStart(old(ssidText), old(passText)) && !permitted ==>
        State() == old(State()).(awaitingPermission := true)
      ensures old(buttonEnabled) && MayStart(old(ssidText), old(passText)) && permitted ==>
        State() == ScanStarted(old(State()), old(ssidText), old(passText), rejected)
    {
      if !buttonEnabled {
        return;
      }
      if MayStart(ssidText, passText) {
        if permitted {
          ConnectToDeviceAndConfigure(ssidText, passText, rejected);
        } else {
          awaitingPermission := true;
        }
      }
    }

    /** The answer to the permission request; a grant reads the inputs again without re-checking them. */
    method OnPermissionResult(granted: bool, rejected: bool)
      modifies this
      ensures !old(awaitingPermission) ==> State() == old(State())
      ensures old(awaitingPermission) && granted ==>
        State() == ScanStarted(old(State()).(awaitingPermission := false), old(ssidText), old(passText), rejected)
      ensures old(awaitingPermission) && !granted ==>
        State() == old(State()).(awaitingPermission := false, buttonEnabled := true,
                                 lastFailure := Some(PermissionDenied))
    {
      if !awaitingPermission {
        return;
      }
      awaitingPermission := false;
      if granted {
        ConnectToDeviceAndConfigure(ssidText, passText, rejected);
      } else {
        lastFailure := Some(PermissionDenied);
        ResetUI();
      }
    }

    method ConnectToDeviceAndConfigure(ssid: string, password: string, rejected: bool)
      modifies this
      ensures State() == ScanStarted(old(State()), ssid, password, rejected)
    {
      buttonEnabled := false;
      callbackSsid, callbackPass := ssid, password;
      if rejected {
        lastFailure := Some(RequestRejected);
        ResetUI();
      } else {
        registered := true;
        awaitingNetwork := true;
      }
    }

    /** The platform found no matching access point; it releases the request itself. */
    method OnUnavailable()
      modifies this
      ensures !old(awaitingNetwork) ==> State() == old(State())
      ensures old(awaitingNetwork) ==>
        State() == old(State()).(awaitingNetwork := false, registered := false, buttonEnabled := true,
                                 lastFailure := Some(DeviceNotFound))
    {
      if !awaitingNetwork {
        return;
      }
      awaitingNetwork := false;
      registered := false;
      lastFailure := Some(DeviceNotFound);
      ResetUI();
    }

    /**
     * The platform associated `net`. `currentUser` is the signed-in user at
     * that moment and `outcome` the device's answer to the POST.
     */
    method OnAvailable(net: Network, currentUser: Option<string>, outcome: HttpOutcome)
      modifies this
      ensures !old(awaitingNetwork) ==> State() == old(State())
      ensures old(awaitingNetwork) && currentUser.None? ==>
        State() == old(State()).(awaitingNetwork := false, bound := Some(net))
      ensures old(awaitingNetwork) && currentUser.Some? ==>
        State() == Sent(old(State()).(awaitingNetwork := false), currentUser.value, outcome)
    {
      if !awaitingNetwork {
        return;
      }
      awaitingNetwork := false;
      bound := Some(net);
      if currentUser.None? {
        return;
      }
      SendConfigToEsp(currentUser.value, outcome);
    }

    method SendConfigToEsp(uid: string, outcome: HttpOutcome)
      modifies this
      ensures State() == Sent(old(State()), uid, outcome)
    {
      var failure := TrySend(uid, outcome);
      // catch
      if failure.Some? {
        lastFailure := failure;
        ResetUI();
      }
      // finally
      bound := None;
      registered := false;
    }

    /** The `try` block: POST the credentials, check the status, read the MAC, issue the save. */
    method TrySend(uid: string, outcome: HttpOutcome) returns (failure: Option<Failure>)
      modifies this
      ensures failure == if SetupResult(uid, outcome).Success? then None else Some(SetupResult(uid, outcome).error)
      ensures State() == old(State()).(
        attempts := old(attempts) + [Payload(uid, old(callbackSsid), old(callbackPass))],
        pendingSaves := old(pendingSaves) + if SetupResult(uid, outcome).Success? then [SetupResult(uid, outcome).value] else [])
    {
      attempts := attempts + [Payload(uid, callbackSsid, callbackPass)];
      match outcome {
        case Throws =>
          failure := Some(Transport);
        case Response(code, body) =>
          if code == HTTP_OK {
            match body {
              case Malformed =>
                failure := Some(BadResponse(Unparseable));
              case Parsed(fields) =>
                var mac := OptString(fields, "mac", UNKNOWN_MAC);
                failure := SaveDeviceToFirestore(uid, mac);
            }
          } else {
            failure := Some(Status(code));
          }
      }
    }

    /** Issues the `set` of the station document; building its reference throws on an invalid id. */
    method SaveDeviceToFirestore(uid: string, mac: string) returns (failure: Option<Failure>)
      modifies this
      ensures ValidId(uid) && ValidId(mac) ==>
        failure == None && State() == old(State()).(pendingSaves := old(pendingSaves) + [Write(BasePath(uid, mac), BaseRecord(mac))])
      ensures !(ValidId(uid) && ValidId(mac)) ==> failure == Some(InvalidPath) && State() == old(State())
    {
      if ValidId(uid) && ValidId(mac) {
        pendingSaves := pendingSaves + [Write(BasePath(uid, mac), BaseRecord(mac))];
        failure := None;
      } else {
        failure := Some(InvalidPath);
      }
    }

    /** The store acknowledges the oldest issued write: success finishes the screen, failure re-arms it. */
    method OnSaveComplete(accepted: bool)
      modifies this, db
      ensures old(pendingSaves) == [] ==> State() == old(State()) && db.docs == old(db.docs)
      ensures old(pendingSaves) != [] && accepted ==>
        && db.docs == Written(old(db.docs), old(pendingSaves)[0])
        && State() == old(State()).(pendingSaves := old(pendingSaves)[1..], finished := true)
      ensures old(pendingSaves) != [] && !accepted ==>
        && db.docs == old(db.docs)
        && State() == old(State()).(pendingSaves := old(pendingSaves)[1..], buttonEnabled := true,
                                    lastFailure := Some(SaveFailed))
    {
      if pendingSaves == [] {
        return;
      }
      var w := pendingSaves[0];
      pendingSaves := pendingSaves[1..];
      if accepted {
        db.Set(w);
        finished := true;
      } else {
        lastFailure := Some(SaveFailed);
        ResetUI();
      }
    }

    method ResetUI()
      modifies this
      ensures State() == old(State()).(buttonEnabled := true)
    {
      buttonEnabled := true;
    }
  }
}

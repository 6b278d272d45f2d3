/**
 * The base-station detail screen's decommission protocol: ask the device to
 * reset, wait for its confirmation on the station's document or for a
 * timeout, and remove the document, by confirmation or by force.
 *
 * The protocol has no state variable of its own: its state is the remove
 * button's enabled flag, the confirmation listener's registration, the
 * dialogs and callbacks still outstanding, and the store. Each callback is an
 * `Event`; `Step` is its effect and `Run` the effect of a trace of them.
 */
module BaseDetail {
  import opened Wrappers
  import opened Store

  /** The signed-in user and the `macAddress` argument, both fixed for the screen's lifetime. */
  datatype Context = Context(uid: Option<string>, mac: Option<string>) {
    /** The station's document, when both parts of its path are known. */
    function Target(): (p: Option<Path>)
      ensures p.Some? <==> uid.Some? && mac.Some?
      ensures p.Some? ==> p.value == BasePath(uid.value, mac.value)
    {
      if uid.Some? && mac.Some? then Some(BasePath(uid.value, mac.value)) else None
    }
  }

  const COMMAND_FIELD := "command"
  const RESET_COMMAND := "RESET"
  const CONFIRM_FIELD := "confirmDestroy"
  const CONFIRM_WORD := "yes"

  datatype Event =
    | CreateView                        // onCreateView
    | DestroyView                       // onDestroyView
    | Detach                            // the fragment leaves its activity (isAdded becomes false)
    | ClickRemove                       // the remove button is tapped
    | ConfirmChoice(remove: bool)       // "Remove" or "Cancel" in the confirmation dialog
    | CommandWriteDone(accepted: bool)  // the store answers the RESET update
    | TimerFired                        // a 10 s timer posted by executeRemoveBase runs
    | DeviceConfirms                    // the device writes its confirmation to its own document
    | Snapshot(failed: bool)            // the confirmation listener is called
    | ForceChoice(force: bool)          // "Force Remove" or "Cancel" in the force-delete dialog
    | DeleteDone(accepted: bool)        // the store answers a delete

  datatype Fragment = Fragment(
    added: bool,              // isAdded
    viewAlive: bool,          // between onCreateView and onDestroyView
    listening: bool,          // the confirmation listener is registered and still receives snapshots
    buttonEnabled: bool,      // btnRemoveBase.isEnabled
    confirmDialogs: nat,      // confirmation dialogs showing
    forceDialogs: nat,        // force-delete dialogs showing
    pendingCommands: nat,     // RESET updates issued and not yet answered
    pendingTimers: nat,       // timers posted and not yet run
    pendingDeletes: nat,      // deletes issued and not yet answered
    backNavigations: nat,     // popBackStack calls
    docs: Docs)

  function Initial(docs: Docs): Fragment {
    Fragment(true, false, false, true, 0, 0, 0, 0, 0, 0, docs)
  }

  /** The station's document carries the device's confirmation word. */
  predicate Confirmed(ctx: Context, d: Docs) {
    && ctx.Target().Some?
    && ctx.Target().value in d
    && CONFIRM_FIELD in d[ctx.Target().value]
    && d[ctx.Target().value][CONFIRM_FIELD] == Str(CONFIRM_WORD)
  }

  /** The station's document carries the RESET command. */
  predicate ResetSent(ctx: Context, d: Docs) {
    && ctx.Target().Some?
    && ctx.Target().value in d
    && COMMAND_FIELD in d[ctx.Target().value]
    && d[ctx.Target().value][COMMAND_FIELD] == Str(RESET_COMMAND)
  }

  /** The store with the station's document left out: what the protocol must not touch. */
  function Outside(ctx: Context, d: Docs): Docs {
    if ctx.Target().Some? then d - {ctx.Target().value} else d
  }

  /** `showForceDeleteOption`: a dialog, unless the fragment is no longer added. */
  function OfferForceDelete(s: Fragment): Fragment {
    if s.added then s.(forceDialogs := s.forceDialogs + 1) else s
  }

  /** `deleteBaseDocument`: the delete is issued and its answer awaited. */
  function IssueDelete(s: Fragment): Fragment {
    s.(pendingDeletes := s.pendingDeletes + 1)
  }

  /** The effect of one event. An event the platform cannot deliver in state `s` (no such dialog, no such callback) leaves it unchanged. */
  function Step(ctx: Context, s: Fragment, e: Event): Fragment {
    match e
    case CreateView =>
      if s.viewAlive then s
      else s.(added := true, viewAlive := true, buttonEnabled := true, listening := s.listening || ctx.Target().Some?)
    case DestroyView =>
      s.(viewAlive := false, listening := false)
    case Detach =>
      s.(added := false, viewAlive := false, listening := false)
    case ClickRemove =>
      if s.viewAlive && s.buttonEnabled && s.added then s.(confirmDialogs := s.confirmDialogs + 1) else s
    case ConfirmChoice(remove) =>
      if s.confirmDialogs == 0 then s
      else
        var t := s.(confirmDialogs := s.confirmDialogs - 1);
        if remove && ctx.Target().Some? then
          t.(buttonEnabled := false, pendingCommands := t.pendingCommands + 1, pendingTimers := t.pendingTimers + 1)
        else t
    case CommandWriteDone(accepted) =>
      if s.pendingCommands == 0 then s
      else
        var t := s.(pendingCommands := s.pendingCommands - 1);
        if accepted && ctx.Target().Some? && ctx.Target().value in s.docs then
          t.(docs := Updated(s.docs, ctx.Target().value, COMMAND_FIELD, Str(RESET_COMMAND)).value)
        else OfferForceDelete(t)
    case TimerFired =>
      if s.pendingTimers == 0 then s
      else
        var t := s.(pendingTimers := s.pendingTimers - 1);
        if t.added && !t.buttonEnabled then OfferForceDelete(t) else t
    case DeviceConfirms =>
      if ctx.Target().Some? && ctx.Target().value in s.docs then
        s.(docs := Updated(s.docs, ctx.Target().value, CONFIRM_FIELD, Str(CONFIRM_WORD)).value)
      else s
    case Snapshot(failed) =>
      if !s.listening then s
      else if failed then s.(listening := false)
      else if Confirmed(ctx, s.docs) then IssueDelete(s.(listening := false)) else s
    case ForceChoice(force) =>
      if s.forceDialogs == 0 then s
      else
        var t := s.(forceDialogs := s.forceDialogs - 1);
        if force then IssueDelete(t) else t.(buttonEnabled := true)
    case DeleteDone(accepted) =>
      if s.pendingDeletes == 0 then s
      else
        var t := s.(pendingDeletes := s.pendingDeletes - 1);
        if accepted then
          var u := if ctx.Target().Some? then t.(docs := Deleted(t.docs, ctx.Target().value)) else t;
          if u.added then u.(backNavigations := u.backNavigations + 1) else u
        else if t.added then t.(buttonEnabled := true)
        else t
  }

  function Run(ctx: Context, s: Fragment, trace: seq<Event>): Fragment
    decreases |trace|
  {
    if trace == [] then s else Run(ctx, Step(ctx, s, trace[0]), trace[1..])
  }

  lemma RunCons(ctx: Context, s: Fragment, e: Event, trace: seq<Event>)
    ensures Run(ctx, s, [e] + trace) == Run(ctx, Step(ctx, s, e), trace)
  {
    assert ([e] + trace)[1..] == trace;
  }

  /**
   * What holds in every reachable state: the listener lives only with the
   * view, the view only while added, and nothing is outstanding against a
   * document the screen cannot name.
   */
  predicate Valid(ctx: Context, s: Fragment) {
    && (s.listening ==> s.viewAlive && ctx.Target().Some?)
    && (s.viewAlive ==> s.added)
    && (ctx.Target().None? ==>
          s.pendingCommands == 0 && s.pendingTimers == 0 && s.forceDialogs == 0 && s.pendingDeletes == 0)
  }

  lemma {:induction false} RunKeepsValid(ctx: Context, s: Fragment, trace: seq<Event>)
    requires Valid(ctx, s)
    ensures Valid(ctx, Run(ctx, s, trace))
    decreases |trace|
  {
    if trace != [] {
      RunKeepsValid(ctx, Step(ctx, s, trace[0]), trace[1..]);
    }
  }

  /** Without a user or a MAC the screen can name no document: from a valid state it never offers, issues or lands a write. */
  lemma UnknownStationNeverWrites(ctx: Context, s: Fragment, trace: seq<Event>)
    requires ctx.Target().None? && Valid(ctx, s)
    ensures Run(ctx, s, trace).docs == s.docs
    ensures var r := Run(ctx, s, trace);
      r.pendingCommands == 0 && r.pendingTimers == 0 && r.forceDialogs == 0 && r.pendingDeletes == 0
  {
    RunKeepsValid(ctx, s, trace);
    OnlyTheStationChanges(ctx, s, trace);
  }

  /** No event writes any document other than the station's own. */
  lemma StepTouchesOnlyTheStation(ctx: Context, s: Fragment, e: Event)
    ensures Outside(ctx, Step(ctx, s, e).docs) == Outside(ctx, s.docs)
  {
    if ctx.Target().Some? {
      var p := ctx.Target().value;
      var d := s.docs;
      if p in d {
        assert d[p := d[p][COMMAND_FIELD := Str(RESET_COMMAND)]] - {p} == d - {p};
        assert d[p := d[p][CONFIRM_FIELD := Str(CONFIRM_WORD)]] - {p} == d - {p};
      }
      assert Deleted(d, p) - {p} == d - {p};
    }
  }

  /** Across any trace, every document other than the station's stays as it was. */
  lemma {:induction false} OnlyTheStationChanges(ctx: Context, s: Fragment, trace: seq<Event>)
    ensures Outside(ctx, Run(ctx, s, trace).docs) == Outside(ctx, s.docs)
    decreases |trace|
  {
    if trace != [] {
      StepTouchesOnlyTheStation(ctx, s, trace[0]);
      OnlyTheStationChanges(ctx, Step(ctx, s, trace[0]), trace[1..]);
    }
  }

  /** Removing a station, by confirmation or by force, leaves its sensors' documents in the store. */
  lemma SensorsSurviveDecommission(ctx: Context, s: Fragment, trace: seq<Event>, sensorId: string)
    requires ctx.uid.Some? && ctx.mac.Some?
    requires SensorPath(ctx.uid.value, ctx.mac.value, sensorId) in s.docs
    ensures SensorPath(ctx.uid.value, ctx.mac.value, sensorId) in Run(ctx, s, trace).docs
    ensures Run(ctx, s, trace).docs[SensorPath(ctx.uid.value, ctx.mac.value, sensorId)]
         == s.docs[SensorPath(ctx.uid.value, ctx.mac.value, sensorId)]
  {
    var p := SensorPath(ctx.uid.value, ctx.mac.value, sensorId);
    SensorPathIsNotABasePath(ctx.uid.value, ctx.mac.value, sensorId, ctx.uid.value, ctx.mac.value);
    OnlyTheStationChanges(ctx, s, trace);
    assert p in Outside(ctx, s.docs);
  }

  /** The RESET command is written only after "Remove" was chosen in the confirmation dialog. */
  lemma {:induction false} NoResetWithoutConfirmation(ctx: Context, s: Fragment, trace: seq<Event>)
    requires s.pendingCommands == 0 && !ResetSent(ctx, s.docs)
    requires ConfirmChoice(true) !in trace
    ensures Run(ctx, s, trace).pendingCommands == 0
    ensures !ResetSent(ctx, Run(ctx, s, trace).docs)
    decreases |trace|
  {
    if trace != [] {
      assert trace[0] != ConfirmChoice(true);
      assert forall e :: e in trace[1..] ==> e in trace;
      NoResetWithoutConfirmation(ctx, Step(ctx, s, trace[0]), trace[1..]);
    }
  }

  /**
   * The station's document is deleted only after the device confirmed or the
   * user chose "Force Remove": without either, no delete is ever issued.
   */
  lemma {:induction false} NoDeleteWithoutAckOrForce(ctx: Context, s: Fragment, trace: seq<Event>)
    requires s.pendingDeletes == 0 && !Confirmed(ctx, s.docs)
    requires DeviceConfirms !in trace && ForceChoice(true) !in trace
    ensures Run(ctx, s, trace).pendingDeletes == 0
    ensures !Confirmed(ctx, Run(ctx, s, trace).docs)
    ensures ctx.Target().Some? && ctx.Target().value in s.docs ==> ctx.Target().value in Run(ctx, s, trace).docs
    decreases |trace|
  {
    if trace != [] {
      assert trace[0] != DeviceConfirms && trace[0] != ForceChoice(true);
      assert forall e :: e in trace[1..] ==> e in trace;
      NoDeleteWithoutAckOrForce(ctx, Step(ctx, s, trace[0]), trace[1..]);
    }
  }

  /**
   * Once disabled, the remove button comes back only through a new view,
   * "Cancel" in the force-delete dialog, or a failed delete.
   */
  lemma {:induction false} ButtonStaysDisabled(ctx: Context, s: Fragment, trace: seq<Event>)
    requires !s.buttonEnabled
    requires CreateView !in trace && ForceChoice(false) !in trace && DeleteDone(false) !in trace
    ensures !Run(ctx, s, trace).buttonEnabled
    decreases |trace|
  {
    if trace != [] {
      assert trace[0] != CreateView && trace[0] != ForceChoice(false) && trace[0] != DeleteDone(false);
      assert forall e :: e in trace[1..] ==> e in trace;
      ButtonStaysDisabled(ctx, Step(ctx, s, trace[0]), trace[1..]);
    }
  }

  /** After the view is destroyed, a confirmation from the device no longer deletes anything; only "Force Remove" can. */
  lemma {:induction false} NoConfirmedDeleteAfterDestroy(ctx: Context, s: Fragment, trace: seq<Event>)
    requires !s.listening
    requires CreateView !in trace && ForceChoice(true) !in trace
    ensures !Run(ctx, s, trace).listening
    ensures Run(ctx, s, trace).pendingDeletes <= s.pendingDeletes
    decreases |trace|
  {
    if trace != [] {
      assert trace[0] != CreateView && trace[0] != ForceChoice(true);
      assert forall e :: e in trace[1..] ==> e in trace;
      NoConfirmedDeleteAfterDestroy(ctx, Step(ctx, s, trace[0]), trace[1..]);
    }
  }

  lemma {:induction false} RunAppend(ctx: Context, s: Fragment, first: seq<Event>, rest: seq<Event>)
    ensures Run(ctx, s, first + rest) == Run(ctx, Run(ctx, s, first), rest)
    decreases |first|
  {
    if first == [] {
      assert first + rest == rest;
    } else {
      assert (first + rest)[0] == first[0];
      assert (first + rest)[1..] == first[1..] + rest;
      RunAppend(ctx, Step(ctx, s, first[0]), first[1..], rest);
    }
  }

  lemma RunOne(ctx: Context, s: Fragment, e: Event)
    ensures Run(ctx, s, [e]) == Step(ctx, s, e)
  {
    assert [e][1..] == [];
  }

  /** The user and station of the traces below, and the store holding just the station's document. */
  const DEMO := Context(Some("u1"), Some("AA:BB:CC"))
  const STATION := BasePath("u1", "AA:BB:CC")
  const STATION_DOC: Record := map["macAddress" := Str("AA:BB:CC"), "name" := Str("New Base Station")]
  const DOCS: Docs := map[STATION := STATION_DOC]

  /** Open the screen, tap remove, choose "Remove". */
  const REQUEST := [CreateView, ClickRemove, ConfirmChoice(true)]

  /** The RESET update is in flight and the timer posted; the button is disabled. */
  const REQUESTED := Fragment(true, true, true, false, 0, 0, 1, 1, 0, 0, DOCS)

  lemma ResetRequested()
    ensures Run(DEMO, Initial(DOCS), REQUEST) == REQUESTED
  {
    var s1 := Step(DEMO, Initial(DOCS), CreateView);
    assert s1 == Fragment(true, true, true, true, 0, 0, 0, 0, 0, 0, DOCS);
    var s2 := Step(DEMO, s1, ClickRemove);
    assert s2 == Fragment(true, true, true, true, 1, 0, 0, 0, 0, 0, DOCS);
    assert Step(DEMO, s2, ConfirmChoice(true)) == REQUESTED;
    RunOne(DEMO, s2, ConfirmChoice(true));
    RunAppend(DEMO, s1, [ClickRemove], [ConfirmChoice(true)]);
    RunOne(DEMO, s1, ClickRemove);
    RunAppend(DEMO, Initial(DOCS), [CreateView], [ClickRemove, ConfirmChoice(true)]);
    RunOne(DEMO, Initial(DOCS), CreateView);
  }

  /** The station's document once the device has seen RESET and confirmed. */
  const ACKED_DOC: Record := STATION_DOC[COMMAND_FIELD := Str(RESET_COMMAND)][CONFIRM_FIELD := Str(CONFIRM_WORD)]

  /** The device acknowledges and the listener fires: the delete is issued and the listener is gone. */
  lemma DeviceAcknowledges()
    ensures Run(DEMO, REQUESTED, [CommandWriteDone(true), DeviceConfirms, Snapshot(false)])
         == Fragment(true, true, false, false, 0, 0, 0, 1, 1, 0, map[STATION := ACKED_DOC])
  {
    var s1 := Step(DEMO, REQUESTED, CommandWriteDone(true));
    assert s1 == Fragment(true, true, true, false, 0, 0, 0, 1, 0, 0, map[STATION := STATION_DOC[COMMAND_FIELD := Str(RESET_COMMAND)]]);
    var s2 := Step(DEMO, s1, DeviceConfirms);
    assert s2 == Fragment(true, true, true, false, 0, 0, 0, 1, 0, 0, map[STATION := ACKED_DOC]);
    assert Confirmed(DEMO, s2.docs);
    RunOne(DEMO, s2, Snapshot(false));
    RunAppend(DEMO, s1, [DeviceConfirms], [Snapshot(false)]);
    RunOne(DEMO, s1, DeviceConfirms);
    RunAppend(DEMO, REQUESTED, [CommandWriteDone(true)], [DeviceConfirms, Snapshot(false)]);
    RunOne(DEMO, REQUESTED, CommandWriteDone(true));
  }

  /** The device confirms within the window: one delete, the document is gone, the screen navigates back once; the timer is still posted. */
  lemma ConfirmedRemoval()
    ensures Run(DEMO, Initial(DOCS), REQUEST + [CommandWriteDone(true), DeviceConfirms, Snapshot(false), DeleteDone(true)])
         == Fragment(true, true, false, false, 0, 0, 0, 1, 0, 1, map[])
  {
    ResetRequested();
    DeviceAcknowledges();
    var acked := Fragment(true, true, false, false, 0, 0, 0, 1, 1, 0, map[STATION := ACKED_DOC]);
    RunAppend(DEMO, Initial(DOCS), REQUEST, [CommandWriteDone(true), DeviceConfirms, Snapshot(false), DeleteDone(true)]);
    RunAppend(DEMO, REQUESTED, [CommandWriteDone(true), DeviceConfirms, Snapshot(false)], [DeleteDone(true)]);
    assert [CommandWriteDone(true), DeviceConfirms, Snapshot(false)] + [DeleteDone(true)]
        == [CommandWriteDone(true), DeviceConfirms, Snapshot(false), DeleteDone(true)];
    RunOne(DEMO, acked, DeleteDone(true));
    assert map[STATION := ACKED_DOC] - {STATION} == map[];
  }

  /** The state after the timeout of an unanswered reset: RESET landed, a force-delete dialog is showing. */
  const TIMED_OUT := Fragment(true, true, true, false, 0, 1, 0, 0, 0, 0, map[STATION := STATION_DOC[COMMAND_FIELD := Str(RESET_COMMAND)]])

  /** The device never answers: when the timer fires the force-delete dialog is offered, and nothing is deleted yet. */
  lemma TimeoutOffersForceDelete()
    ensures Run(DEMO, REQUESTED, [CommandWriteDone(true), TimerFired]) == TIMED_OUT
  {
    var s1 := Step(DEMO, REQUESTED, CommandWriteDone(true));
    RunOne(DEMO, s1, TimerFired);
    RunAppend(DEMO, REQUESTED, [CommandWriteDone(true)], [TimerFired]);
    RunOne(DEMO, REQUESTED, CommandWriteDone(true));
  }

  /** After the timeout, "Force Remove" deletes the document once and navigates back; "Cancel" brings the button back. */
  lemma ForceChoiceAfterTimeout()
    ensures var waiting := Fragment(true, true, true, false, 0, 1, 0, 0, 0, 0, DOCS);
      && Run(DEMO, waiting, [ForceChoice(true), DeleteDone(true)])
           == Fragment(true, true, true, false, 0, 0, 0, 0, 0, 1, map[])
      && Run(DEMO, waiting, [ForceChoice(false)])
           == Fragment(true, true, true, true, 0, 0, 0, 0, 0, 0, DOCS)
  {
    var waiting := Fragment(true, true, true, false, 0, 1, 0, 0, 0, 0, DOCS);
    var s1 := Step(DEMO, waiting, ForceChoice(true));
    assert DOCS - {STATION} == map[];
    RunOne(DEMO, s1, DeleteDone(true));
    RunAppend(DEMO, waiting, [ForceChoice(true)], [DeleteDone(true)]);
    RunOne(DEMO, waiting, ForceChoice(true));
    RunOne(DEMO, waiting, ForceChoice(false));
  }

  /** The RESET write fails and then the timer fires: two force-delete dialogs are showing at once. */
  lemma ForceDeleteOfferedTwice()
    ensures Run(DEMO, REQUESTED, [CommandWriteDone(false), TimerFired]).forceDialogs == 2
  {
    var s1 := Step(DEMO, REQUESTED, CommandWriteDone(false));
    assert s1.forceDialogs == 1;
    RunOne(DEMO, s1, TimerFired);
    RunAppend(DEMO, REQUESTED, [CommandWriteDone(false)], [TimerFired]);
    RunOne(DEMO, REQUESTED, CommandWriteDone(false));
  }

  /** The device confirms late, while the force-delete dialog is still showing, and the user then forces removal. */
  lemma LateConfirmationThenForce()
    ensures Run(DEMO, TIMED_OUT, [DeviceConfirms, Snapshot(false), ForceChoice(true)])
         == Fragment(true, true, false, false, 0, 0, 0, 0, 2, 0, map[STATION := ACKED_DOC])
  {
    var s1 := Step(DEMO, TIMED_OUT, DeviceConfirms);
    assert s1 == TIMED_OUT.(docs := map[STATION := ACKED_DOC]);
    assert Confirmed(DEMO, s1.docs);
    var s2 := Step(DEMO, s1, Snapshot(false));
    assert s2 == Fragment(true, true, false, false, 0, 1, 0, 0, 1, 0, map[STATION := ACKED_DOC]);
    RunAppend(DEMO, TIMED_OUT, [DeviceConfirms], [Snapshot(false), ForceChoice(true)]);
    RunOne(DEMO, TIMED_OUT, DeviceConfirms);
    RunAppend(DEMO, s1, [Snapshot(false)], [ForceChoice(true)]);
    RunOne(DEMO, s1, Snapshot(false));
    RunOne(DEMO, s2, ForceChoice(true));
  }

  /**
   * The timer is never cancelled and the confirmation does not close the
   * force-delete dialog: the device confirms after the timeout, and the user
   * still forces removal. Two deletes are in flight.
   */
  lemma ConfirmAndForceBothDelete()
    ensures Run(DEMO, REQUESTED, [CommandWriteDone(true), TimerFired] + [DeviceConfirms, Snapshot(false), ForceChoice(true)])
         == Fragment(true, true, false, false, 0, 0, 0, 0, 2, 0, map[STATION := ACKED_DOC])
  {
    TimeoutOffersForceDelete();
    LateConfirmationThenForce();
    RunAppend(DEMO, REQUESTED, [CommandWriteDone(true), TimerFired], [DeviceConfirms, Snapshot(false), ForceChoice(true)]);
  }

  /** Both deletes of the previous trace succeed while the fragment is still added: the screen navigates back twice. */
  lemma DoubleBackNavigation()
    ensures Run(DEMO, Fragment(true, true, false, false, 0, 0, 0, 0, 2, 0, map[STATION := ACKED_DOC]),
                [DeleteDone(true), DeleteDone(true)])
         == Fragment(true, true, false, false, 0, 0, 0, 0, 0, 2, map[])
  {
    var s0 := Fragment(true, true, false, false, 0, 0, 0, 0, 2, 0, map[STATION := ACKED_DOC]);
    assert map[STATION := ACKED_DOC] - {STATION} == map[];
    var s1 := Step(DEMO, s0, DeleteDone(true));
    assert s1 == Fragment(true, true, false, false, 0, 0, 0, 0, 1, 1, map[]);
    RunAppend(DEMO, s0, [DeleteDone(true)], [DeleteDone(true)]);
    RunOne(DEMO, s0, DeleteDone(true));
    RunOne(DEMO, s1, DeleteDone(true));
  }

  /** The timer outlives a confirmed removal: while the fragment is still added, it offers to force-delete a document that is already gone. */
  lemma ForceOfferedAfterRemoval()
    ensures var r := Run(DEMO, Initial(DOCS), REQUEST + [CommandWriteDone(true), DeviceConfirms, Snapshot(false), DeleteDone(true), TimerFired]);
      STATION !in r.docs && r.forceDialogs == 1
  {
    var removal := REQUEST + [CommandWriteDone(true), DeviceConfirms, Snapshot(false), DeleteDone(true)];
    ConfirmedRemoval();
    var r := Run(DEMO, Initial(DOCS), removal);
    RunAppend(DEMO, Initial(DOCS), removal, [TimerFired]);
    assert removal + [TimerFired] == REQUEST + [CommandWriteDone(true), DeviceConfirms, Snapshot(false), DeleteDone(true), TimerFired];
    RunOne(DEMO, r, TimerFired);
  }

  /**
   * The listener does not wait for a reset request: a confirmation left on
   * the document by an earlier attempt whose delete failed deletes the
   * station as soon as the screen is opened again, without a tap.
   */
  lemma StaleConfirmationDeletesOnOpen()
    ensures var reopened := Run(DEMO, Fragment(true, false, false, true, 0, 0, 0, 0, 0, 0, map[STATION := ACKED_DOC]),
                                [CreateView, Snapshot(false), DeleteDone(true)]);
      && STATION !in reopened.docs
      && reopened.backNavigations == 1
  {
    var s0 := Fragment(true, false, false, true, 0, 0, 0, 0, 0, 0, map[STATION := ACKED_DOC]);
    var s1 := Step(DEMO, s0, CreateView);
    assert s1.listening && Confirmed(DEMO, s1.docs);
    var s2 := Step(DEMO, s1, Snapshot(false));
    assert s2.pendingDeletes == 1;
    RunAppend(DEMO, s0, [CreateView], [Snapshot(false), DeleteDone(true)]);
    RunOne(DEMO, s0, CreateView);
    RunAppend(DEMO, s1, [Snapshot(false)], [DeleteDone(true)]);
    RunOne(DEMO, s1, Snapshot(false));
    RunOne(DEMO, s2, DeleteDone(true));
  }

  /** The fragment's fields and callbacks; the store is shared with the rest of the app. */
  class BaseDetailFragment {
    const ctx: Context
    const db: DocumentStore
    var added: bool
    var viewAlive: bool
    var listening: bool
    var buttonEnabled: bool
    var confirmDialogs: nat
    var forceDialogs: nat
    var pendingCommands: nat
    var pendingTimers: nat
    var pendingDeletes: nat
    var backNavigations: nat

    ghost function State(): Fragment
      reads this, db
    {
      Fragment(added, viewAlive, listening, buttonEnabled, confirmDialogs, forceDialogs,
               pendingCommands, pendingTimers, pendingDeletes, backNavigations, db.docs)
    }

    /** Attached to its activity, its view not yet created. */
    constructor (ctx: Context, db: DocumentStore)
      ensures this.ctx == ctx && this.db == db
      ensures State() == Initial(db.docs)
      ensures Valid(ctx, State())
    {
      this.ctx := ctx;
      this.db := db;
      added, viewAlive, listening, buttonEnabled := true, false, false, true;
      confirmDialogs, forceDialogs := 0, 0;
      pendingCommands, pendingTimers, pendingDeletes, backNavigations := 0, 0, 0, 0;
    }

    /** A fresh view with an enabled button; the confirmation listener is registered when user and MAC are known. */
    method OnCreateView()
      modifies this
      requires Valid(ctx, State())
      ensures State() == Step(ctx, old(State()), CreateView)
      ensures Valid(ctx, State())
    {
      if viewAlive {
        return;
      }
      added, viewAlive := true, true;
      buttonEnabled := true;
      if ctx.mac.Some? {
        ListenForDeviceStatus();
      }
    }

    method ListenForDeviceStatus()
      modifies this
      ensures State() == old(State()).(listening := old(listening) || ctx.uid.Some?)
    {
      if ctx.uid.None? {
        return;
      }
      listening := true;
    }

    method OnDestroyView()
      modifies this
      requires Valid(ctx, State())
      ensures State() == Step(ctx, old(State()), DestroyView)
      ensures Valid(ctx, State())
    {
      viewAlive := false;
      listening := false;
    }

    method OnDetach()
      modifies this
      requires Valid(ctx, State())
      ensures State() == Step(ctx, old(State()), Detach)
      ensures Valid(ctx, State())
    {
      added, viewAlive, listening := false, false, false;
    }

    /** The remove button's click listener. */
    method OnRemoveClick()
      modifies this
      requires Valid(ctx, State())
      ensures State() == Step(ctx, old(State()), ClickRemove)
      ensures Valid(ctx, State())
    {
      if !viewAlive || !buttonEnabled {
        return;
      }
      ConfirmRemoveBase();
    }

    method ConfirmRemoveBase()
      modifies this
      ensures State() == if old(added) then old(State()).(confirmDialogs := old(confirmDialogs) + 1) else old(State())
    {
      if !added {
        return;
      }
      confirmDialogs := confirmDialogs + 1;
    }

    method OnConfirmChoice(remove: bool)
      modifies this
      requires Valid(ctx, State())
      ensures State() == Step(ctx, old(State()), ConfirmChoice(remove))
      ensures Valid(ctx, State())
    {
      if confirmDialogs == 0 {
        return;
      }
      confirmDialogs := confirmDialogs - 1;
      if remove {
        ExecuteRemoveBase();
      }
    }

    /** Disable the button, send RESET, post the timer. */
    method ExecuteRemoveBase()
      modifies this
      ensures ctx.Target().None? ==> State() == old(State())
      ensures ctx.Target().Some? ==> State() == old(State()).(
        buttonEnabled := false, pendingCommands := old(pendingCommands) + 1, pendingTimers := old(pendingTimers) + 1)
    {
      if ctx.uid.None? || ctx.mac.None? {
        return;
      }
      buttonEnabled := false;
      pendingCommands := pendingCommands + 1;
      pendingTimers := pendingTimers + 1;
    }

    /** The store answers the RESET update: it lands only if the document exists, and a failure offers force-delete. */
    method OnCommandWriteDone(accepted: bool)
      modifies this, db
      requires Valid(ctx, State())
      ensures State() == Step(ctx, old(State()), CommandWriteDone(accepted))
      ensures Valid(ctx, State())
    {
      if pendingCommands == 0 {
        return;
      }
      pendingCommands := pendingCommands - 1;
      var ok := false;
      if accepted && ctx.Target().Some? {
        ok := db.Update(ctx.Target().value, COMMAND_FIELD, Str(RESET_COMMAND));
      }
      if !ok && added {
        ShowForceDeleteOption();
      }
    }

    /** The 10 s timer: offer force-delete if the button is still disabled. */
    method OnTimer()
      modifies this
      requires Valid(ctx, State())
      ensures State() == Step(ctx, old(State()), TimerFired)
      ensures Valid(ctx, State())
    {
      if pendingTimers == 0 {
        return;
      }
      pendingTimers := pendingTimers - 1;
      if added && !buttonEnabled {
        ShowForceDeleteOption();
      }
    }

    method ShowForceDeleteOption()
      modifies this
      ensures State() == OfferForceDelete(old(State()))
    {
      if !added {
        return;
      }
      forceDialogs := forceDialogs + 1;
    }

    /** The confirmation listener: on the confirmation word, unregister and delete. */
    method OnSnapshot(failed: bool)
      modifies this
      requires Valid(ctx, State())
      ensures State() == Step(ctx, old(State()), Snapshot(failed))
      ensures Valid(ctx, State())
    {
      if !listening {
        return;
      }
      if failed {
        // the store ends a listener after reporting an error to it
        listening := false;
        return;
      }
      if Confirmed(ctx, db.docs) {
        listening := false;
        DeleteBaseDocument();
      }
    }

    method OnForceChoice(force: bool)
      modifies this
      requires Valid(ctx, State())
      ensures State() == Step(ctx, old(State()), ForceChoice(force))
      ensures Valid(ctx, State())
    {
      if forceDialogs == 0 {
        return;
      }
      forceDialogs := forceDialogs - 1;
      if force {
        DeleteBaseDocument();
      } else {
        buttonEnabled := true;
      }
    }

    method DeleteBaseDocument()
      modifies this
      ensures State() == IssueDelete(old(State()))
    {
      pendingDeletes := pendingDeletes + 1;
    }

    /** The store answers a delete: success removes the document and navigates back, failure brings the button back. */
    method OnDeleteDone(accepted: bool)
      modifies this, db
      requires Valid(ctx, State())
      ensures State() == Step(ctx, old(State()), DeleteDone(accepted))
      ensures Valid(ctx, State())
    {
      if pendingDeletes == 0 {
        return;
      }
      pendingDeletes := pendingDeletes - 1;
      if accepted {
        if ctx.Target().Some? {
          db.Delete(ctx.Target().value);
        }
        if added {
          backNavigations := backNavigations + 1;
        }
      } else if added {
        buttonEnabled := true;
      }
    }
  }
}

/**
 * The desktop window of `src/gui/gui.py`: what each worker operation reports,
 * the one-worker-at-a-time guard of the three buttons, and the button states
 * after an operation completes.
 *
 * The worker's calls into the process, the credential store and the browser
 * are oracles here: each outcome tree is a function of their answers.
 */
module Gui {
  import opened Common
  import opened Text
  import Credentials

  // ---------------------------------------------------------------------
  // The messages the worker reports
  // ---------------------------------------------------------------------

  const NotStartedMessage := "Mudfish is not running and could not be started."
  const NoCredentialsMessage := "No stored credentials found. Please set up credentials first."
  const ConnectedMessage := "Successfully connected to Mudfish VPN!"
  const StartedOnlyMessage := "Mudfish started successfully! Please check the web interface to complete connection."
  const NotRunningMessage := "Mudfish is not currently running - already disconnected."
  const DisconnectedMessage := "Successfully disconnected from Mudfish VPN!"
  const UnclearMessage := "Disconnect command sent but status unclear."
  const NotCurrentlyConnectedMessage := "Mudfish is not currently connected."
  const ManualDisconnectMessage := "Please disconnect manually via Mudfish web interface or Task Manager"
  const StatusConnectedMessage := "Mudfish is currently connected."
  const StatusNotConnectedMessage := "Mudfish is not connected."
  const StatusFailedMessage := "Failed to check status - WebDriver error."

  /** The seconds after which a status check counts as timed out. */
  const StatusTimeout: real := 10.0

  /** What a worker emits through `operation_complete`. */
  datatype Completion = Completion(success: bool, message: string)

  /** How a worker operation ends: it emits a completion, or raises into `run`. */
  datatype WorkerEnd = Emitted(completion: Completion) | Raised

  /** `run` turns an exception with text `error` into a failure. */
  function Reported(end: WorkerEnd, error: string): (c: Completion)
    ensures end.Raised? ==> c == Completion(false, "Error: " + error)
    ensures end.Emitted? ==> c == end.completion
  {
    match end
    case Emitted(completion) => completion
    case Raised => Completion(false, "Error: " + error)
  }

  // ---------------------------------------------------------------------
  // _connect_mudfish
  // ---------------------------------------------------------------------

  /** Python's truth value of what `load_credentials` returned. */
  predicate LoadedTruthy(credentials: Option<Credentials.Json>) {
    match credentials
    case None => false
    case Some(Object(fields)) => fields != map[]
    case Some(NotObject(truthy)) => truthy
  }

  /** How far `_connect_mudfish` got, and how it ended. */
  datatype ConnectRun = ConnectRun(headlessTried: bool, browserUsed: bool, end: WorkerEnd)

  /**
   * `_connect_mudfish`: a failure when Mudfish cannot be started or no
   * credentials load; otherwise the HTTP login is tried, and the browser
   * logs in and connects when a driver is created. Reading fields of a
   * loaded value that is not a JSON object raises.
   */
  function ConnectWorker(processStarted: bool, credentials: Option<Credentials.Json>, headlessOk: bool, driverAvailable: bool): (run: ConnectRun)
    ensures run.end == Emitted(Completion(false, NotStartedMessage)) <==> !processStarted
    ensures run.end == Emitted(Completion(false, NoCredentialsMessage)) <==> processStarted && !LoadedTruthy(credentials)
    ensures run.end.Raised? <==> processStarted && LoadedTruthy(credentials) && credentials.value.NotObject?
    ensures run.headlessTried <==> processStarted && LoadedTruthy(credentials) && credentials.value.Object?
    ensures run.browserUsed <==> run.headlessTried && driverAvailable
    ensures run.headlessTried ==> run.end.Emitted? && run.end.completion.success
    ensures run.end.Emitted? && run.end.completion.success <==> run.headlessTried
  {
    if !processStarted then ConnectRun(false, false, Emitted(Completion(false, NotStartedMessage)))
    else if !LoadedTruthy(credentials) then ConnectRun(false, false, Emitted(Completion(false, NoCredentialsMessage)))
    else if credentials.value.NotObject? then ConnectRun(false, false, Raised)
    else if driverAvailable then ConnectRun(true, true, Emitted(Completion(true, ConnectedMessage)))
    else ConnectRun(true, false, Emitted(Completion(true, StartedOnlyMessage)))
  }

  /** The HTTP login's outcome changes nothing: not the browser use, not the report. */
  lemma ConnectIgnoresHeadless(processStarted: bool, credentials: Option<Credentials.Json>, driverAvailable: bool)
    ensures ConnectWorker(processStarted, credentials, true, driverAvailable) == ConnectWorker(processStarted, credentials, false, driverAvailable)
  {
  }

  /** The worker reports a connection only after a browser session, and reports success without a driver too. */
  lemma ConnectMessages(processStarted: bool, credentials: Option<Credentials.Json>, headlessOk: bool, driverAvailable: bool)
    ensures var run := ConnectWorker(processStarted, credentials, headlessOk, driverAvailable);
      && (run.end == Emitted(Completion(true, ConnectedMessage)) <==> run.browserUsed)
      && (run.end == Emitted(Completion(true, StartedOnlyMessage)) <==> run.headlessTried && !driverAvailable)
  {
    assert ConnectedMessage != StartedOnlyMessage by {
      assert |ConnectedMessage| == 38 && |StartedOnlyMessage| > 38;
    }
  }

  // ---------------------------------------------------------------------
  // _disconnect_mudfish
  // ---------------------------------------------------------------------

  /** How far `_disconnect_mudfish` got, and what it reported. */
  datatype DisconnectRun = DisconnectRun(driverRequested: bool, disconnectPressed: bool, completion: Completion)

  /**
   * `_disconnect_mudfish`: already disconnected when Mudfish does not run;
   * otherwise with a driver, disconnects a connected VPN and verifies it,
   * and without one asks for a manual disconnect. Only an unverified
   * disconnect is a failure.
   */
  function DisconnectWorker(running: bool, driverAvailable: bool, connected: bool, disconnectedAfter: bool): (run: DisconnectRun)
    ensures !run.completion.success <==> running && driverAvailable && connected && !disconnectedAfter
    ensures run.driverRequested <==> running
    ensures run.disconnectPressed <==> running && driverAvailable && connected
    ensures !running ==> run.completion == Completion(true, NotRunningMessage)
    ensures running && !driverAvailable ==> run.completion == Completion(true, ManualDisconnectMessage)
    ensures run.completion == Completion(true, DisconnectedMessage) <==> run.disconnectPressed && disconnectedAfter
  {
    if !running then DisconnectRun(false, false, Completion(true, NotRunningMessage))
    else if !driverAvailable then DisconnectRun(true, false, Completion(true, ManualDisconnectMessage))
    else if !connected then DisconnectRun(true, false, Completion(true, NotCurrentlyConnectedMessage))
    else if disconnectedAfter then DisconnectRun(true, true, Completion(true, DisconnectedMessage))
    else DisconnectRun(true, true, Completion(false, UnclearMessage))
  }

  // ---------------------------------------------------------------------
  // _check_status
  // ---------------------------------------------------------------------

  /** What `is_mudfish_connected` did inside the status check. */
  datatype StatusCheck = Answered(connected: bool) | CheckRaised

  /**
   * `_check_status`: without a driver a failure; otherwise connected only
   * when the check answered yes within the timeout. An exception from the
   * check and a late answer both read as not connected.
   */
  function CheckStatusWorker(driverAvailable: bool, check: StatusCheck, elapsed: real): (c: Completion)
    ensures !driverAvailable <==> !c.success
    ensures !driverAvailable ==> c.message == StatusFailedMessage
    ensures driverAvailable ==>
      c.message == (if check == Answered(true) && elapsed <= StatusTimeout then StatusConnectedMessage else StatusNotConnectedMessage)
  {
    if !driverAvailable then Completion(false, StatusFailedMessage)
    else
      var connected := check.Answered? && check.connected;
      var connected := if elapsed > StatusTimeout then false else connected;
      Completion(true, if connected then StatusConnectedMessage else StatusNotConnectedMessage)
  }

  // ---------------------------------------------------------------------
  // The buttons after an operation
  // ---------------------------------------------------------------------

  /** Whether the connect and disconnect buttons are enabled. */
  datatype Buttons = Buttons(connectEnabled: bool, disconnectEnabled: bool)

  /** The message reports a connected VPN, as `on_operation_complete` reads it. */
  predicate SaysConnected(message: string) {
    Contains(Lower(message), "connected")
  }

  /** The message reports a disconnected VPN, as the `elif` of `on_operation_complete` reads it. */
  predicate SaysDisconnected(message: string) {
    Contains(Lower(message), "disconnected") || Contains(Lower(message), "not connected")
  }

  /** The button rule of `on_operation_complete` as written: the "connected" test comes first. */
  function ButtonsAsWritten(success: bool, message: string): Buttons {
    if !success then Buttons(true, true)
    else if SaysConnected(message) then Buttons(false, true)
    else if SaysDisconnected(message) then Buttons(true, false)
    else Buttons(true, true)
  }

  /** Both words of the `elif` contain "connected". */
  lemma DisconnectedSaysConnected(message: string)
    requires SaysDisconnected(message)
    ensures SaysConnected(message)
  {
    var lower := Lower(message);
    if Contains(lower, "disconnected") {
      assert OccursAt("disconnected", "connected", 3);
      ContainsTransitive(lower, "disconnected", "connected");
    } else {
      assert OccursAt("not connected", "connected", 4);
      ContainsTransitive(lower, "not connected", "connected");
    }
  }

  /** The `elif` branch never runs: as written, no message ever enables connect while disabling disconnect. */
  lemma ElifUnreachable(success: bool, message: string)
    ensures ButtonsAsWritten(success, message) != Buttons(true, false)
  {
    if success && SaysDisconnected(message) {
      DisconnectedSaysConnected(message);
    }
  }

  /** As written, the status check's "not connected" report leaves Connect disabled. */
  lemma NotConnectedDisablesConnect()
    ensures ButtonsAsWritten(true, StatusNotConnectedMessage) == Buttons(false, true)
  {
    var lower := Lower(StatusNotConnectedMessage);
    assert lower[15..24] == "connected";
    assert OccursAt(lower, "connected", 15);
  }

  /** The button rule `on_operation_complete` evidently means: a disconnected report enables only Connect. */
  function ButtonsIntended(success: bool, message: string): (b: Buttons)
    ensures b.connectEnabled || b.disconnectEnabled
    ensures !success ==> b == Buttons(true, true)
  {
    if !success then Buttons(true, true)
    else if SaysDisconnected(message) then Buttons(true, false)
    else if SaysConnected(message) then Buttons(false, true)
    else Buttons(true, true)
  }

  /**
   * After a success, exactly one button is offered when the message speaks
   * of the connection: Connect after a disconnected report, Disconnect after
   * a connected one; both when it does not mention the connection.
   */
  lemma IntendedButtons(message: string)
    ensures SaysDisconnected(message) ==> ButtonsIntended(true, message) == Buttons(true, false)
    ensures SaysConnected(message) && !SaysDisconnected(message) ==> ButtonsIntended(true, message) == Buttons(false, true)
    ensures ButtonsIntended(true, message) == Buttons(true, true) <==> !SaysConnected(message)
  {
    if SaysDisconnected(message) {
      DisconnectedSaysConnected(message);
    }
  }

  /** The two rules differ only where the `elif` was meant to apply. */
  lemma IntendedDiffersOnlyOnDisconnect(success: bool, message: string)
    ensures ButtonsIntended(success, message) != ButtonsAsWritten(success, message) <==> success && SaysDisconnected(message)
  {
    if success && SaysDisconnected(message) {
      DisconnectedSaysConnected(message);
    }
  }

  /** With the intended rule, the status check's "not connected" report offers Connect. */
  lemma NotConnectedOffersConnect()
    ensures ButtonsIntended(true, StatusNotConnectedMessage) == Buttons(true, false)
  {
    var lower := Lower(StatusNotConnectedMessage);
    assert lower[11..24] == "not connected";
    assert OccursAt(lower, "not connected", 11);
  }

  // ---------------------------------------------------------------------
  // The window
  // ---------------------------------------------------------------------

  /** The operations a worker runs. */
  datatype Operation = Connect | Disconnect | CheckStatus

  /** The state of `MudfishGUI` that the operations touch. */
  class MudfishGui {
    var connectEnabled: bool
    var disconnectEnabled: bool
    var progressVisible: bool
    var progressValue: int
    var statusLabel: string
    var statusBar: string
    /** The warning boxes shown, in order. */
    var warnings: seq<string>
    /** The last worker created, if any, and whether its thread still runs. */
    var worker: Option<Operation>
    var workerRunning: bool
    /** Every worker started, in order. */
    var started: seq<Operation>

    /** A worker thread runs only after one was created. */
    predicate Valid()
      reads this
    {
      workerRunning ==> worker.Some?
    }

    /** The guard `self.worker and self.worker.isRunning()`. */
    predicate Busy()
      reads this
    {
      worker.Some? && workerRunning
    }

    /** The window as `setup_ui` leaves it: only Connect enabled, "Ready" in the status bar, no worker. */
    constructor ()
      ensures Valid() && !Busy()
      ensures connectEnabled && !disconnectEnabled && !progressVisible && statusBar == "Ready"
      ensures statusLabel == "Status: Checking..." && warnings == [] && worker == None && started == []
    {
      connectEnabled := true;
      disconnectEnabled := false;
      progressVisible := false;
      progressValue := 0;
      statusLabel := "Status: Checking...";
      statusBar := "Ready";
      warnings := [];
      worker := None;
      workerRunning := false;
      started := [];
    }

    /** Start a worker for `op`, unless one is running. */
    method StartWorker(op: Operation)
      requires Valid()
      modifies this
      ensures Valid()
      ensures old(Busy()) ==> unchanged(this)
      ensures !old(Busy()) ==>
        && worker == Some(op) && workerRunning && started == old(started) + [op]
        && progressVisible && progressValue == 0
        && (op.CheckStatus? ==> connectEnabled == old(connectEnabled) && disconnectEnabled == old(disconnectEnabled))
        && (!op.CheckStatus? ==> !connectEnabled && !disconnectEnabled)
        && statusLabel == old(statusLabel) && statusBar == old(statusBar) && warnings == old(warnings)
    {
      if worker.Some? && workerRunning {
        return;
      }
      if !op.CheckStatus? {
        connectEnabled := false;
        disconnectEnabled := false;
      }
      progressVisible := true;
      progressValue := 0;
      worker := Some(op);
      started := started + [op];
      workerRunning := true;
    }

    /** `connect_mudfish`: disable both buttons and start a connect worker, unless one is running. */
    method ConnectMudfish()
      requires Valid()
      modifies this
      ensures Valid()
      ensures old(Busy()) ==> unchanged(this)
      ensures !old(Busy()) ==>
        && worker == Some(Connect) && workerRunning && started == old(started) + [Connect]
        && !connectEnabled && !disconnectEnabled && progressVisible && progressValue == 0
        && statusLabel == old(statusLabel) && statusBar == old(statusBar) && warnings == old(warnings)
    {
      StartWorker(Connect);
    }

    /** `disconnect_mudfish`: disable both buttons and start a disconnect worker, unless one is running. */
    method DisconnectMudfish()
      requires Valid()
      modifies this
      ensures Valid()
      ensures old(Busy()) ==> unchanged(this)
      ensures !old(Busy()) ==>
        && worker == Some(Disconnect) && workerRunning && started == old(started) + [Disconnect]
        && !connectEnabled && !disconnectEnabled && progressVisible && progressValue == 0
        && statusLabel == old(statusLabel) && statusBar == old(statusBar) && warnings == old(warnings)
    {
      StartWorker(Disconnect);
    }

    /** `check_status`: start a status worker, unless one is running; the buttons are left alone. */
    method CheckStatus()
      requires Valid()
      modifies this
      ensures Valid()
      ensures old(Busy()) ==> unchanged(this)
      ensures !old(Busy()) ==>
        && worker == Some(Operation.CheckStatus) && workerRunning && started == old(started) + [Operation.CheckStatus]
        && progressVisible && progressValue == 0
        && connectEnabled == old(connectEnabled) && disconnectEnabled == old(disconnectEnabled)
        && statusLabel == old(statusLabel) && statusBar == old(statusBar) && warnings == old(warnings)
    {
      StartWorker(Operation.CheckStatus);
    }

    /** `update_status`: the worker's progress text goes to the status bar. */
    method UpdateStatus(message: string)
      modifies this
      ensures statusBar == message
      ensures connectEnabled == old(connectEnabled) && disconnectEnabled == old(disconnectEnabled)
      ensures worker == old(worker) && workerRunning == old(workerRunning) && started == old(started)
      ensures statusLabel == old(statusLabel) && warnings == old(warnings)
      ensures progressVisible == old(progressVisible) && progressValue == old(progressValue)
    {
      statusBar := message;
    }

    /** The worker's thread ends after it has emitted its completion. */
    method WorkerFinished()
      modifies this
      ensures Valid() && !Busy()
      ensures worker == old(worker) && !workerRunning && started == old(started)
      ensures connectEnabled == old(connectEnabled) && disconnectEnabled == old(disconnectEnabled)
      ensures statusLabel == old(statusLabel) && statusBar == old(statusBar) && warnings == old(warnings)
      ensures progressVisible == old(progressVisible) && progressValue == old(progressValue)
    {
      workerRunning := false;
    }

    /**
     * `on_operation_complete`: hide the progress bar, set the buttons by the
     * rule as written (the "connected" test first), show the message (or
     * "Error" and a warning box on failure), and leave "Ready" in the status bar.
     */
    method OnOperationComplete(success: bool, message: string)
      modifies this
      ensures Buttons(connectEnabled, disconnectEnabled) == ButtonsAsWritten(success, message)
      ensures !progressVisible && statusBar == "Ready"
      ensures success ==> statusLabel == "Status: " + message && warnings == old(warnings)
      ensures !success ==> statusLabel == "Status: Error" && warnings == old(warnings) + [message]
      ensures worker == old(worker) && workerRunning == old(workerRunning) && started == old(started)
      ensures progressValue == old(progressValue)
    {
      progressVisible := false;
      connectEnabled := true;
      disconnectEnabled := true;
      if success {
        statusLabel := "Status: " + message;
        if SaysConnected(message) {
          connectEnabled := false;
          disconnectEnabled := true;
        } else if SaysDisconnected(message) {
          connectEnabled := true;
          disconnectEnabled := false;
        }
      } else {
        statusLabel := "Status: Error";
        warnings := warnings + [message];
      }
      statusBar := "Ready";
    }
  }

  /**
   * The one-worker guard of `connect_mudfish`, `disconnect_mudfish` and
   * `check_status`: clicks while a worker runs start nothing and change
   * nothing; once that worker has finished, the next click starts one.
   */
  method ClicksWhileBusyIgnored() returns (ops: seq<Operation>, status: string, bar: string)
    ensures ops == [Connect, Disconnect]
    ensures status == "Status: Checking..." && bar == "Ready"
  {
    var w := new MudfishGui();
    w.ConnectMudfish();
    w.DisconnectMudfish();
    w.CheckStatus();
    w.WorkerFinished();
    w.DisconnectMudfish();
    ops, status, bar := w.started, w.statusLabel, w.statusBar;
  }
}

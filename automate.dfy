/**
 * `auto_start` and the command-line entry of the `automate_mudfish` module:
 * make sure Mudfish runs, try the HTTP login, then log in and connect through
 * the browser.
 *
 * The process, the web interface and the browser are the models of the
 * Process and Connection modules, driven on the same oracles; the driver
 * `get_chrome_driver` hands out is a parameter (`null` when none could be
 * created).
 */
module AutomateMudfish {
  import opened Common
  import Selenium
  import Platform
  import Process
  import Connection

  /** The browser requests of a session after history `t`: log in, then connect. */
  function SessionSteps(dom: (seq<Selenium.Action>, Selenium.Locator) -> Selenium.Lookup, t: seq<Selenium.Action>,
                        username: string, password: string, adminpage: Option<string>): seq<Selenium.Action>
  {
    var login := Connection.LoginSteps(dom, t, username, password, adminpage);
    login + Connection.ToggleSteps(dom, t + login, Connection.StartButton, Connection.StopButton)
  }

  /** What `connect` reports at the end of a session after history `t`. */
  function SessionReport(dom: (seq<Selenium.Action>, Selenium.Locator) -> Selenium.Lookup, t: seq<Selenium.Action>,
                         username: string, password: string, adminpage: Option<string>): Connection.ToggleReport
  {
    var login := Connection.LoginSteps(dom, t, username, password, adminpage);
    Connection.ToggleOutcome(dom, t + login, Connection.StartButton, Connection.StopButton)
  }

  /** A session clicks the login button at most once and the start button at most once, and visits the admin page first. */
  lemma SessionClicks(dom: (seq<Selenium.Action>, Selenium.Locator) -> Selenium.Lookup, t: seq<Selenium.Action>,
                      username: string, password: string, adminpage: Option<string>)
    ensures var steps := SessionSteps(dom, t, username, password, adminpage);
      && steps[0] == Selenium.Visit(Connection.AdminUrl(adminpage))
      && Selenium.Clicks(steps) <= 2
  {
    var login := Connection.LoginSteps(dom, t, username, password, adminpage);
    var toggle := Connection.ToggleSteps(dom, t + login, Connection.StartButton, Connection.StopButton);
    Connection.LoginClicksOnlyAtTheEnd(dom, t, username, password, adminpage);
    Connection.ToggleClicksOnce(dom, t + login, Connection.StartButton, Connection.StopButton);
    Selenium.ClicksAppend(login, toggle);
  }

  /** How far `auto_start` got. */
  datatype AutoStartEnd =
    | ProcessNotStarted                            // Mudfish is not running and could not be started
    | DriverMissing                                // no Chrome driver could be created
    | BrowserRun(report: Connection.ToggleReport)  // logged in and connected through the browser

  /** The launcher run `auto_start` performs on a machine whose process table is read from scan `s0`. */
  function AutoStartLaunch(machine: Platform.Machine, s0: nat, launcher: Option<string>): Process.StartOutcome
    reads machine
  {
    Process.StartPlan(machine.processTable, machine.pathExists, machine.startFileRaises, machine.programsFolder,
                      false, s0, Process.DefaultPollTime, launcher)
  }

  /**
   * `auto_start`: starts Mudfish (returning if that fails), tries the HTTP
   * login, whose result is only logged, and with a driver logs in and
   * connects through the browser.
   */
  method AutoStart(username: string, password: string, adminpage: Option<string>, launcher: Option<string>,
                   machine: Platform.Machine,
                   get: string -> Connection.Http<seq<Connection.HiddenInput>>,
                   post: (string, Connection.Payload) -> Connection.Http<Connection.PostResponse>,
                   chromeDriver: Selenium.Browser?)
    returns (ending: AutoStartEnd, headlessTried: bool)
    modifies machine, chromeDriver
    ensures var plan := AutoStartLaunch(machine, old(machine.scans), launcher);
      && machine.trace == old(machine.trace) + plan.events
      && machine.scans == old(machine.scans) + plan.scans
      && headlessTried == plan.ok
      && (!plan.ok ==> ending == ProcessNotStarted)
      && (plan.ok && chromeDriver == null ==> ending == DriverMissing)
      && (plan.ok && chromeDriver != null ==> ending == BrowserRun(SessionReport(chromeDriver.dom, old(chromeDriver.trace), username, password, adminpage)))
    ensures chromeDriver != null ==>
      chromeDriver.trace == old(chromeDriver.trace) + (if ending.BrowserRun? then SessionSteps(chromeDriver.dom, old(chromeDriver.trace), username, password, adminpage) else [])
  {
    var mudfishProcess := new Process.MudfishProcess(machine);
    var mudfishProcessStarted := mudfishProcess.StartMudfishLauncher(Process.DefaultPollTime, launcher);
    if !mudfishProcessStarted {
      return ProcessNotStarted, false;
    }

    // The outcome of the HTTP login is only logged.
    var loggedIn, _ := Connection.LoginWithoutDriver(username, password, adminpage, get, post);
    headlessTried := true;

    if chromeDriver == null {
      return DriverMissing, headlessTried;
    }
    ghost var t0 := chromeDriver.trace;
    var mudfishConnection := new Connection.MudfishConnection(chromeDriver);
    mudfishConnection.Login(username, password, adminpage);
    ghost var t1 := chromeDriver.trace;
    var report := mudfishConnection.Connect();
    assert chromeDriver.trace == t0 + SessionSteps(chromeDriver.dom, t0, username, password, adminpage) by {
      assert t1 == t0 + Connection.LoginSteps(chromeDriver.dom, t0, username, password, adminpage);
    }
    ending := BrowserRun(report);
  }

  /** The arguments of the `automate_mudfish` command line. */
  datatype AutomateArgs = AutomateArgs(username: string, password: string, adminpage: string, launcher: Option<string>, verbose: bool)

  /** The arguments as logged: the password always replaced by `***`, everything else as parsed. */
  function LoggedArgs(args: AutomateArgs): (logged: AutomateArgs)
    ensures logged.password == "***"
    ensures logged.username == args.username && logged.adminpage == args.adminpage
    ensures logged.launcher == args.launcher && logged.verbose == args.verbose
  {
    args.(password := "***")
  }

  /** How a run of `auto_start` ends for the entry point. */
  datatype Fault = Returned | Interrupted | Raised

  /** `main`'s exit status: an interrupt is swallowed, any other exception exits 1. */
  function AutomateExitCode(fault: Fault): (code: int)
    ensures code == 1 <==> fault == Raised
    ensures code == 0 <==> fault != Raised
  {
    match fault
    case Returned => 0
    case Interrupted => 0
    case Raised => 1
  }
}

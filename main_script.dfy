/**
 * The command-line program `src/main.py`: loading stored credentials,
 * merging them with the command-line values, the abort points of `main`, and
 * the dispatch and exit status of `cli`.
 *
 * `main` drives the Process and Connection models on the same oracles as
 * `auto_start`; what the credential manager loads is a parameter.
 */
module MainScript {
  import opened Common
  import opened Text
  import Selenium
  import Platform
  import Process
  import Connection
  import Credentials
  import AutomateMudfish

  // ---------------------------------------------------------------------
  // Stored credentials
  // ---------------------------------------------------------------------

  /** What `load_credentials` returns: username, password and admin page as stored. */
  datatype StoredLogin = StoredLogin(username: Credentials.Value, password: Credentials.Value, adminpage: Option<Credentials.Value>)

  /** `credentials.get("adminpage")`: absent for a missing key and for JSON `null`. */
  function StoredAdminpage(fields: map<string, Credentials.Value>): Option<Credentials.Value> {
    if "adminpage" in fields && !fields["adminpage"].Null? then Some(fields["adminpage"]) else None
  }

  /**
   * `load_credentials`: the stored login when the loaded record has a
   * non-empty username and password; None otherwise, also when the record
   * is not a JSON object (reading a field of it raises, which is caught).
   */
  function LoadCredentials(loaded: Option<Credentials.Json>): (r: Option<StoredLogin>)
    ensures r.Some? <==>
      && loaded.Some? && loaded.value.Object?
      && "username" in loaded.value.fields && Credentials.Truthy(loaded.value.fields["username"])
      && "password" in loaded.value.fields && Credentials.Truthy(loaded.value.fields["password"])
    ensures r.Some? ==>
      && r.value.username == loaded.value.fields["username"]
      && r.value.password == loaded.value.fields["password"]
      && r.value.adminpage == StoredAdminpage(loaded.value.fields)
  {
    match loaded
    case None => None
    case Some(Object(fields)) =>
      if fields == map[] then None
      else
        var username := Credentials.GetOr(fields, "username", Credentials.Str(""));
        var password := Credentials.GetOr(fields, "password", Credentials.Str(""));
        if Credentials.Truthy(username) && Credentials.Truthy(password) then
          Some(StoredLogin(username, password, StoredAdminpage(fields)))
        else None
    case Some(NotObject(_)) => None
  }

  /** A record written by `store_credentials` loads back as the same login. */
  lemma StoredRecordLoads(username: string, password: string, adminpage: Option<string>)
    requires username != "" && password != ""
    ensures LoadCredentials(Some(Credentials.StoredDocument(username, password, adminpage))) ==
      Some(StoredLogin(Credentials.Str(username), Credentials.Str(password), if adminpage.Some? then Some(Credentials.Str(adminpage.value)) else None))
  {
    var fields := Credentials.StoredDocument(username, password, adminpage).fields;
    assert "username" in fields && "password" in fields && "adminpage" in fields;
  }

  /** The text of a stored value; a stored number, list or object (only a hand-edited file holds one) becomes a fixed placeholder. */
  function TextOf(v: Credentials.Value): string {
    match v
    case Str(s) => s
    case Null => ""
    case OtherValue(_) => "<json>"
  }

  // ---------------------------------------------------------------------
  // main
  // ---------------------------------------------------------------------

  /** The login `main` goes on with. */
  datatype Login = Login(username: Option<string>, password: Option<string>, adminpage: Option<string>)

  /** Stored credentials are read when asked for, or when neither username nor password was given. */
  predicate Consults(username: Option<string>, password: Option<string>, useStored: bool) {
    useStored || (username.None? && password.None?)
  }

  /** The given values, with the stored ones filling in what was not given. */
  function Merge(username: Option<string>, password: Option<string>, adminpage: Option<string>, stored: StoredLogin): Login {
    Login(
      if username.None? then Some(TextOf(stored.username)) else username,
      if password.None? then Some(TextOf(stored.password)) else password,
      if adminpage.None? && stored.adminpage.Some? && Credentials.Truthy(stored.adminpage.value) then Some(TextOf(stored.adminpage.value)) else adminpage)
  }

  /** The login after merging, or None when stored credentials were needed and none loaded. */
  function EffectiveLogin(username: Option<string>, password: Option<string>, adminpage: Option<string>, useStored: bool,
                          loaded: Option<Credentials.Json>): Option<Login>
  {
    if !Consults(username, password, useStored) then Some(Login(username, password, adminpage))
    else match LoadCredentials(loaded)
      case None => None
      case Some(stored) => Some(Merge(username, password, adminpage, stored))
  }

  /** Both a username and a password, each non-empty. */
  predicate Complete(login: Login) {
    Present(login.username) && Present(login.password)
  }

  /** Given values take precedence over stored ones; the stored admin page fills in only a missing one, and only when it is truthy. */
  lemma GivenValuesWin(username: Option<string>, password: Option<string>, adminpage: Option<string>, useStored: bool,
                       loaded: Option<Credentials.Json>)
    requires EffectiveLogin(username, password, adminpage, useStored, loaded).Some?
    ensures var login := EffectiveLogin(username, password, adminpage, useStored, loaded).value;
      && (username.Some? ==> login.username == username)
      && (password.Some? ==> login.password == password)
      && (adminpage.Some? ==> login.adminpage == adminpage)
      && (login.adminpage != adminpage ==>
            && Consults(username, password, useStored)
            && adminpage.None?
            && LoadCredentials(loaded).value.adminpage.Some?
            && Credentials.Truthy(LoadCredentials(loaded).value.adminpage.value))
  {
  }

  /** Stored credentials make a complete login whenever neither value was given. */
  lemma StoredLoginComplete(adminpage: Option<string>, useStored: bool, loaded: Option<Credentials.Json>)
    requires LoadCredentials(loaded).Some?
    requires var s := LoadCredentials(loaded).value; s.username.Str? && s.password.Str?
    ensures var login := EffectiveLogin(None, None, adminpage, useStored, loaded);
      && login.Some? && Complete(login.value)
  {
  }

  /** How `main` ends: `sys.exit(code)`, or returning after `connect` with its report. */
  datatype MainEnd = Exit(code: int) | Finished(report: Connection.ToggleReport)

  /**
   * `main`: merges stored credentials in, exits 1 when none load or the
   * login is incomplete, starts Mudfish (exit 1 on failure), tries the HTTP
   * login, whose result changes nothing, requests a driver (exit 1 when none
   * comes) and logs in and connects through it.
   */
  method RunMain(username: Option<string>, password: Option<string>, adminpage: Option<string>, launcher: Option<string>,
                 useStored: bool, showBrowser: bool, loaded: Option<Credentials.Json>,
                 machine: Platform.Machine,
                 get: string -> Connection.Http<seq<Connection.HiddenInput>>,
                 post: (string, Connection.Payload) -> Connection.Http<Connection.PostResponse>,
                 chromeDriver: Selenium.Browser?)
    returns (ending: MainEnd, consulted: bool, driverRequest: Option<bool>)
    modifies machine, chromeDriver
    ensures consulted == Consults(username, password, useStored)
    ensures var login := EffectiveLogin(username, password, adminpage, useStored, loaded);
      && (login.None? || !Complete(login.value) ==>
            ending == Exit(1) && driverRequest == None
            && machine.trace == old(machine.trace) && machine.scans == old(machine.scans))
      && (login.Some? && Complete(login.value) ==>
            var plan := AutomateMudfish.AutoStartLaunch(machine, old(machine.scans), launcher);
            && machine.trace == old(machine.trace) + plan.events
            && machine.scans == old(machine.scans) + plan.scans
            && (!plan.ok ==> ending == Exit(1) && driverRequest == None)
            && (plan.ok ==> driverRequest == Some(!showBrowser))
            && (plan.ok && chromeDriver == null ==> ending == Exit(1))
            && (plan.ok && chromeDriver != null ==>
                  ending == Finished(AutomateMudfish.SessionReport(chromeDriver.dom, old(chromeDriver.trace),
                                       login.value.username.value, login.value.password.value, login.value.adminpage))))
    ensures chromeDriver != null ==>
      chromeDriver.trace == old(chromeDriver.trace) +
        (if ending.Finished? then
           var login := EffectiveLogin(username, password, adminpage, useStored, loaded).value;
           AutomateMudfish.SessionSteps(chromeDriver.dom, old(chromeDriver.trace), login.username.value, login.password.value, login.adminpage)
         else [])
  {
    var user, pass, page := username, password, adminpage;
    consulted := Consults(username, password, useStored);
    driverRequest := None;
    if consulted {
      var storedCreds := LoadCredentials(loaded);
      if storedCreds.None? {
        return Exit(1), consulted, driverRequest;
      }
      var stored := storedCreds.value;
      if user.None? {
        user := Some(TextOf(stored.username));
      }
      if pass.None? {
        pass := Some(TextOf(stored.password));
      }
      if page.None? && stored.adminpage.Some? && Credentials.Truthy(stored.adminpage.value) {
        page := Some(TextOf(stored.adminpage.value));
      }
    }
    assert EffectiveLogin(username, password, adminpage, useStored, loaded) == Some(Login(user, pass, page));

    if !Present(user) || !Present(pass) {
      return Exit(1), consulted, driverRequest;
    }

    // `main` runs the steps of `auto_start`, exiting where that returns.
    var run, started := AutomateMudfish.AutoStart(user.value, pass.value, page, launcher, machine, get, post, chromeDriver);
    if started {
      driverRequest := Some(!showBrowser);
    }
    match run {
      case ProcessNotStarted => ending := Exit(1);
      case DriverMissing => ending := Exit(1);
      case BrowserRun(report) => ending := Finished(report);
    }
  }

  // ---------------------------------------------------------------------
  // cli
  // ---------------------------------------------------------------------

  /** The parsed command line; `adminpage` defaults to the desktop admin page. */
  datatype CliArgs = CliArgs(
    setup: bool, useStored: bool, showCredentials: bool, clearCredentials: bool,
    username: Option<string>, password: Option<string>, adminpage: string, launcher: Option<string>,
    verbose: bool, showBrowser: bool, cleanupChromedriver: bool, debug: bool)

  /** What `cli` does with a command line. */
  datatype Command = Setup | ShowCredentials | ClearCredentials | CleanupChromedrivers | UsageError | Automate

  /** The first management flag set wins, in the order setup, show, clear, cleanup; otherwise the automation runs if it has credentials to use. */
  function CliCommand(args: CliArgs): (c: Command)
    ensures c == Setup <==> args.setup
    ensures c == ShowCredentials <==> !args.setup && args.showCredentials
    ensures c == ClearCredentials <==> !args.setup && !args.showCredentials && args.clearCredentials
    ensures c == CleanupChromedrivers <==> !args.setup && !args.showCredentials && !args.clearCredentials && args.cleanupChromedriver
    ensures c == UsageError <==>
      && !args.setup && !args.showCredentials && !args.clearCredentials && !args.cleanupChromedriver
      && !args.useStored && (!Present(args.username) || !Present(args.password))
  {
    if args.setup then Setup
    else if args.showCredentials then ShowCredentials
    else if args.clearCredentials then ClearCredentials
    else if args.cleanupChromedriver then CleanupChromedrivers
    else if !args.useStored && (!Present(args.username) || !Present(args.password)) then UsageError
    else Automate
  }

  /** How the call of `main` from `cli` ends. */
  datatype MainRun = Ended(end: MainEnd) | Interrupted | Raised

  /**
   * The exit status of `cli`: setup and clear exit 0 exactly when they
   * succeed, show and cleanup always 0, a usage error 2 (argparse), and the
   * automation with `main`'s own exit status, 0 when it returns or is
   * interrupted, 1 on any other exception.
   */
  function CliExitCode(command: Command, setupOk: bool, clearOk: bool, run: MainRun): (code: int)
    ensures command == Setup ==> (code == 0 <==> setupOk) && (code == 1 <==> !setupOk)
    ensures command == ClearCredentials ==> (code == 0 <==> clearOk) && (code == 1 <==> !clearOk)
    ensures command == ShowCredentials || command == CleanupChromedrivers ==> code == 0
    ensures command == UsageError ==> code == 2
    ensures command == Automate && run.Ended? && run.end.Exit? ==> code == run.end.code
    ensures command == Automate && !(run.Ended? && run.end.Exit?) ==> (code == 1 <==> run.Raised?) && (code == 0 <==> !run.Raised?)
  {
    match command
    case Setup => if setupOk then 0 else 1
    case ShowCredentials => 0
    case ClearCredentials => if clearOk then 0 else 1
    case CleanupChromedrivers => 0
    case UsageError => 2
    case Automate =>
      match run
      case Ended(Exit(code)) => code
      case Ended(Finished(_)) => 0
      case Interrupted => 0
      case Raised => 1
  }

  /** The admin page `cli` hands to `main`: always the parsed value, never None. */
  function CliAdminpage(args: CliArgs): Option<string> {
    Some(args.adminpage)
  }

  /** From the command line the stored admin page is never applied: the parsed one (the default included) always wins. */
  lemma CliIgnoresStoredAdminpage(args: CliArgs, loaded: Option<Credentials.Json>)
    requires EffectiveLogin(args.username, args.password, CliAdminpage(args), args.useStored, loaded).Some?
    ensures EffectiveLogin(args.username, args.password, CliAdminpage(args), args.useStored, loaded).value.adminpage == Some(args.adminpage)
  {
  }

  /** The automation from the command line always has a username and password to go on, given or stored. */
  lemma AutomateHasCredentials(args: CliArgs, loaded: Option<Credentials.Json>)
    requires CliCommand(args) == Automate && !args.useStored
    ensures !Consults(args.username, args.password, args.useStored)
    ensures var login := EffectiveLogin(args.username, args.password, CliAdminpage(args), args.useStored, loaded);
      login.Some? && Complete(login.value)
  {
  }

  /** The arguments as logged: a non-empty password replaced by `***`. */
  function LoggedCliArgs(args: CliArgs): (logged: CliArgs)
    ensures Present(args.password) ==> logged.password == Some("***")
    ensures !Present(args.password) ==> logged == args
    ensures logged.(password := args.password) == args
  {
    if Present(args.password) then args.(password := Some("***")) else args
  }
}

# auto-mudfish, modelled in Dafny

auto-mudfish automates the Mudfish Cloud VPN client on Windows. It makes sure
the Mudfish process (`mudrun.exe`) runs, starting its launcher when needed.
It then logs in to Mudfish's local web admin page, once through plain HTTP
requests and once through a Chrome browser driven by Selenium, and presses the
page's start (connect) or stop (disconnect) button. The credentials it uses
are given on the command line or stored, encrypted with DPAPI, in
`~/.auto_mudfish/credentials.enc`. Chrome drivers matching the installed
Chrome are fetched into `~/.auto_mudfish/chromedriver/<version>/`, and all but
three version directories are pruned. A PyQt window runs the same operations on a worker
thread.

The model is a set of Dafny modules, one per source file plus shared support:

- `Common`: `Option` and the `Present` test, which is Python's truth value of an optional string.
- `Text`: the string built-ins the code relies on. This covers ASCII `lower`, `in` on strings, `split`, whitespace `split()`, `strip` and Python's string order.
- `Selenium`: a `Browser` class that records every request in a `trace`. What the page shows is a function `dom` of that trace.
- `Platform`: a `Machine` class for the operating system. It holds the process-table snapshots, the existing paths, the paths whose `os.startfile` raises, the Programs folder, and a trace of the requests made.
- `Process` (`src/auto_mudfish/process.py`): `MudfishProcess` as a class with its two caches. Each method is proved against the function `StartPlan` and its helpers.
- `Connection` (`auto_mudfish/connection.py`):
  - the HTTP login, with its form payload and its success classifier;
  - `MudfishConnection` over a `Browser`, with login, the button getters, connect and disconnect.
- `Credentials` (`auto_mudfish/credentials.py`): `CredentialManager` over an abstract codec. The codec stands for JSON, DPAPI and base64 together.
- `Chromedriver` (`src/auto_mudfish/driver.py`):
  - pruning of old driver directories;
  - Chrome version detection from `reg query` output;
  - the four-step download-URL chain and the reuse of a driver already on disk;
  - the configuration done by `ChromeDriver.__init__`.
- `AutomateMudfish` (`auto_mudfish/automate_mudfish.py`): `auto_start` and the exit codes of its entry point.
- `MainScript` (`src/main.py`):
  - `load_credentials`;
  - the credential merge and the run of `main`;
  - the dispatch and exit codes of `cli`.
- `Gui` (`src/gui/gui.py`):
  - the three worker operations, as functions of the answers they receive;
  - the `MudfishGUI` window state as a class: its buttons, status label, status bar, progress bar, warnings and current worker.

Everything outside the program is a parameter of the model:

- the process table;
- the file system;
- the Windows shell and registry;
- HTTP replies;
- the browser page;
- DPAPI, JSON and base64.

## Model

| member | source | states |
|---|---|---|
| Process.ToPosix | src/auto_mudfish/process.py:81-84 | The result has the input's length, contains no backslash, and keeps every other character. |
| Process.LnkPathShape | src/auto_mudfish/process.py:58-86 | The launcher shortcut path is never empty, contains no backslash, and ends in `Mudfish Cloud VPN/Mudfish Launcher.lnk`. |
| Process.PollChecks | src/auto_mudfish/process.py:180-184 | A poll makes at most `poll_time` scans, and none when `poll_time` is not positive. |
| Process.PollFindsIff | src/auto_mudfish/process.py:159-184 | Polling succeeds iff one of the `poll_time` scans it may make lists `mudrun.exe`. |
| Process.PollChecksExact | src/auto_mudfish/process.py:180-184 | Polling stops at the first scan that lists Mudfish, and no earlier scan listed it. On failure it makes all `poll_time` scans. |
| Process.PollRoundsShape | src/auto_mudfish/process.py:180-184 | Each poll round is a one-second sleep followed by one process scan. |
| Process.ChooseLauncherCases | src/auto_mudfish/process.py:186-223 | The shortcut wins when it exists. The executable is used only when the shortcut is missing. The result is None when both are missing, and a returned path always exists. |
| Process.MudfishProcess.constructor | src/auto_mudfish/process.py:37-44 | Both caches start empty. |
| Process.MudfishProcess.MudrunExePath | src/auto_mudfish/process.py:46-56 | Always returns `MUDRUN_EXE`, and afterwards it is cached. |
| Process.MudfishProcess.MudfishLauncherLnk | src/auto_mudfish/process.py:58-86 | Asks the Windows shell only while nothing is cached, then returns and caches the shortcut path. |
| Process.MudfishProcess.IsMudfishRunning | src/auto_mudfish/process.py:88-106 | One scan. The result is true iff a process is named exactly `mudrun.exe`. |
| Process.MudfishProcess.PollIsMudfishRunning | src/auto_mudfish/process.py:159-184 | The result is `PollFinds`. It makes exactly `PollChecks` rounds of sleep then scan. |
| Process.MudfishProcess.FindMudfishLauncher | src/auto_mudfish/process.py:186-223 | Returns `ChooseLauncher`, probes the shortcut before the executable, and caches the paths it computed. |
| Process.MudfishProcess.ResolveLauncher | src/auto_mudfish/process.py:140-142 | A non-empty caller path is used without any search and both caches stay as they were. Otherwise `find_mudfish_launcher` runs, which leaves the shortcut path cached and, when the shortcut is missing, the `mudrun.exe` path too. |
| Process.MudfishProcess.LaunchResolved | src/auto_mudfish/process.py:141-157 | Without a launcher path the result is false and nothing is requested. Otherwise the launch and the poll are exactly `LaunchPlan`. |
| Process.MudfishProcess.LaunchAndPoll | src/auto_mudfish/process.py:144-157 | A start that raises gives false and no poll. Otherwise the result is the poll's result. |
| Process.MudfishProcess.StartMudfishLauncher | src/auto_mudfish/process.py:108-157 | Its result, its requests to the machine and its scan count are exactly those of `StartPlan`. The caches change only when the launcher search ran, and then as in `find_mudfish_launcher`. |
| Process.AlreadyRunningShortCircuits | src/auto_mudfish/process.py:135-137 | Already running: true after a single scan, with no search, launch or poll. |
| Process.CallerLauncherNotSearched | src/auto_mudfish/process.py:140-150 | A caller's launcher is started straight after the first scan, and no search request is ever made. |
| Process.NoLauncherNoLaunch | src/auto_mudfish/process.py:139-142 | With no launcher found, the result is false after one scan, and nothing is started. |
| Process.LaunchErrorNoPoll | src/auto_mudfish/process.py:145-150 | A launch that raises `OSError` gives false, and its last request is the launch. |
| Process.StartOkMeansSeenRunning | src/auto_mudfish/process.py:108-157 | The start succeeds iff some scan it made listed Mudfish. |
| Process.ProcessTableExamples | tests/test_mudfish_process.py:21-38 | `mudrun.exe` is found. `other.exe` and an empty table are not. |
| Connection.AdminUrl | auto_mudfish/connection.py:151 | The login URL is the given admin page when it is non-empty, and the desktop default otherwise. |
| Connection.GetPut | auto_mudfish/connection.py:154-168 | A dict assignment changes only the key it assigns. |
| Connection.KeysPut | auto_mudfish/connection.py:154-168 | An existing key keeps its place, and a new key goes last. |
| Connection.FirstOccurrencesDistinct | auto_mudfish/connection.py:154-168 | The keys of a dict built by assignments are distinct. |
| Connection.FirstOccurrencesPrefix | auto_mudfish/connection.py:154-168 | Later assignments never reorder the keys already present. |
| Connection.BuildPayload | auto_mudfish/connection.py:154-168 | The posted form holds the credentials and `_submit`, overridden by each hidden input that has both a name and a value, with the last one winning. |
| Connection.PayloadForStep | auto_mudfish/connection.py:166-168 | Copying one more hidden input keeps the payload matching its definition. |
| Connection.PayloadStartsWithCredentials | auto_mudfish/connection.py:154-158 | The form starts with `username`, `password` and `_submit`, in that order. |
| Connection.PayloadKeysDistinct | auto_mudfish/connection.py:154-168 | No key occurs twice in the posted form. |
| Connection.SubmitFlag | auto_mudfish/connection.py:157 | `_submit` is "1" unless a copied hidden input overrides it. |
| Connection.HiddenInputOverrides | auto_mudfish/connection.py:166-168 | A copied hidden input overrides the key it names, credentials included. |
| Connection.UncopiedInputIgnored | auto_mudfish/connection.py:167 | An input that lacks a name or a value leaves the form unchanged. |
| Connection.LoginSucceededIff | auto_mudfish/connection.py:174-210 | Success iff a success indicator occurs in the lowercased body, or the final URL is not a login page and there was a redirect or a 200. |
| Connection.IndicatorWins | auto_mudfish/connection.py:187-197 | An indicator gives success whatever the status, history and URL. |
| Connection.StillOnLoginFails | auto_mudfish/connection.py:193-210 | Without an indicator, a final URL containing "signin" or "login" fails. |
| Connection.NoRedirectNeeds200 | auto_mudfish/connection.py:195-210 | Without an indicator and without a redirect, any status but 200 fails. |
| Connection.DefaultPageIsLoginPage | auto_mudfish/connection.py:42-47 | Posting back to the default sign-in URL without an indicator always fails. |
| Connection.LastIndicatorSubsumed | auto_mudfish/connection.py:177-185 | A body containing "logged in successfully" also contains "success". |
| Connection.LoginWithoutDriver | auto_mudfish/connection.py:122-214 | Any request failure gives false. Otherwise the form `BuildPayload` describes is posted to the login URL, and the result is `LoginSucceeded` of the reply. |
| Connection.RedirectToMainPageSucceeds | tests/test_mudfish_connection.py:29-42 | A redirect to `main.html` with an empty body is a success. |
| Connection.LoggedInMessageSucceeds | tests/test_mudfish_connection.py:47-58 | The body "You are logged in" is a success. |
| Connection.InvalidCredentialsHasNoIndicator | auto_mudfish/connection.py:177-185 | "Invalid credentials" contains none of the seven success indicators. |
| Connection.InvalidCredentialsFails | tests/test_mudfish_connection.py:63-74 | "Invalid credentials" with status 401 and no redirect is a failure. |
| Connection.ToggleClicksOnce | auto_mudfish/connection.py:216-284 | When the button shows, connect or disconnect clicks exactly once and re-checks once. Otherwise it does neither. |
| Connection.LoginClicksOnlyAtTheEnd | auto_mudfish/connection.py:69-120 | Browser login visits the admin URL first. It clicks at most once, on the login button, and only after the whole form was found. |
| Connection.MudfishConnection.constructor | auto_mudfish/connection.py:49-58 | The connection holds the given driver, which may be none. |
| Connection.MudfishConnection.Login | auto_mudfish/connection.py:69-120 | Without a driver nothing happens. Otherwise the browser's requests are exactly `LoginSteps`, and a missing element ends the login. |
| Connection.MudfishConnection.GetButton | auto_mudfish/connection.py:324-416 | Returns the button iff it is present and displayed after the explicit or implicit wait. Without a driver it returns None. |
| Connection.MudfishConnection.GetConnectButton | auto_mudfish/connection.py:324-369 | Returns the start button iff it is shown. Without a driver it returns None. |
| Connection.MudfishConnection.GetDisconnectButton | auto_mudfish/connection.py:371-416 | Returns the stop button iff it is shown. Without a driver it returns None. |
| Connection.MudfishConnection.IsMudfishConnected | auto_mudfish/connection.py:286-303 | Connected iff the stop button shows. Without a driver the answer is false. |
| Connection.MudfishConnection.IsMudfishDisconnected | auto_mudfish/connection.py:305-322 | Disconnected iff the start button shows. Without a driver the answer is true. |
| Connection.MudfishConnection.Connect | auto_mudfish/connection.py:216-249 | Presses start only when it shows, then checks once for stop. Its requests and report are `ToggleSteps` and `ToggleOutcome`. |
| Connection.MudfishConnection.Disconnect | auto_mudfish/connection.py:251-284 | The mirror of connect: it presses stop, then checks for start. |
| Credentials.Info | auto_mudfish/credentials.py:219-237 | Info exists iff the record is a non-empty object. `has_password` is the truth value of its password. |
| Credentials.StoreLoadRoundTrip | auto_mudfish/credentials.py:111-180 | After a successful store, loading gives back the same username, password and admin page, a missing admin page included. |
| Credentials.LastStoreWins | auto_mudfish/credentials.py:140-144 | A successful store leaves the new record, whatever the file held before. |
| Credentials.ClearLeavesNothing | auto_mudfish/credentials.py:182-199 | After a successful clear nothing loads and no info is reported, and clearing again changes nothing. |
| Credentials.StoredInfo | auto_mudfish/credentials.py:219-237 | The info of a stored record is its username and admin page, and whether its password is non-empty. |
| Credentials.CredentialManager.constructor | auto_mudfish/credentials.py:33-50 | The manager holds the given codec and file. |
| Credentials.CredentialManager.StoreCredentials | auto_mudfish/credentials.py:111-148 | True iff encryption and the write succeed. On failure the file is untouched. |
| Credentials.CredentialManager.LoadCredentials | auto_mudfish/credentials.py:150-180 | None when the file is absent or unreadable. Otherwise the decoded record, or None when decoding fails. |
| Credentials.CredentialManager.ClearCredentials | auto_mudfish/credentials.py:182-199 | True when no file existed or it was deleted, and the file is then gone. False only when the delete fails. |
| Credentials.CredentialManager.HasCredentials | auto_mudfish/credentials.py:201-217 | True iff the file exists and loads. |
| Credentials.CredentialManager.GetCredentialsInfo | auto_mudfish/credentials.py:219-237 | Returns `Info` of what loads, and None when nothing loads. |
| Chromedriver.SortDescendingCorrect | src/auto_mudfish/driver.py:44 | `sort(reverse=True)` yields a descending permutation of its input under any total preorder. |
| Chromedriver.InsertPermutes | src/auto_mudfish/driver.py:44 | Inserting an element adds exactly that element. |
| Chromedriver.InsertDescending | src/auto_mudfish/driver.py:44 | Insertion keeps a sequence descending. |
| Chromedriver.StringOrder | src/auto_mudfish/driver.py:44 | Python's string order is a total preorder. |
| Chromedriver.VersionOrder | src/auto_mudfish/driver.py:43-44 | Dotted-number version order is a total preorder. |
| Chromedriver.VersionDirs | src/auto_mudfish/driver.py:37-38 | The names listed are exactly the entries that are directories. |
| Chromedriver.PruneNothingWhenFew | src/auto_mudfish/driver.py:33-41 | Nothing is removed when the directory is missing or holds at most three versions. |
| Chromedriver.PruneKeepsThreeGreatest | src/auto_mudfish/driver.py:40-45 | Three directories are kept and the rest removed. Together they are the listing, and every kept one ranks above every removed one. |
| Chromedriver.StringOrderRetention | src/auto_mudfish/driver.py:27-55 | As written: the three greatest names in string order survive, and only directories are removed. |
| Chromedriver.VersionOrderRetention | src/auto_mudfish/driver.py:27-55 | Intended: the three newest versions survive, and only directories are removed. |
| Chromedriver.StringOrderDeletesNewer | src/auto_mudfish/driver.py:44-45 | With drivers 99, 100, 101 and 131, string order deletes 100 and keeps 99. |
| Chromedriver.VersionOrderDeletesOldest | src/auto_mudfish/driver.py:43-45 | With the same drivers, version order deletes 99, the oldest. |
| Chromedriver.Succeeded | src/auto_mudfish/driver.py:45-52 | The removals that succeed are at most those attempted. |
| Chromedriver.SucceededAppend | src/auto_mudfish/driver.py:45-52 | One more attempt keeps the earlier successes and adds this one if it works. |
| Chromedriver.FailuresDoNotStopCleanup | src/auto_mudfish/driver.py:45-52 | A directory is removed exactly when it is targeted and its own removal works. |
| Chromedriver.DriverCache.constructor | src/auto_mudfish/driver.py:30-31 | The cache starts with nothing attempted or removed. |
| Chromedriver.DriverCache.CleanupOldChromedrivers | src/auto_mudfish/driver.py:27-55 | Sorts the version names as strings, descending, and attempts to remove every directory after the first three, in order: exactly `PruneTargetsAsWritten`. The ones removed are those whose removal works. |
| Chromedriver.DriverCache.RemoveEach | src/auto_mudfish/driver.py:45-52 | Attempts every target in order. A failure is caught and does not stop the loop. |
| Chromedriver.FirstVersionLine | src/auto_mudfish/driver.py:90 | The first line mentioning "version": no earlier line mentions it. |
| Chromedriver.VersionLineHasWord | src/auto_mudfish/driver.py:95 | A version line has at least one word, so `split()[-1]` cannot fail. |
| Chromedriver.ParseChromeVersion | src/auto_mudfish/driver.py:90-96 | The version is the last word of the first line mentioning "version", with no spaces. The major version is its part before the first dot. |
| Chromedriver.ParseFailsIffNoVersionLine | src/auto_mudfish/driver.py:90-93 | Parsing fails exactly when no line mentions "version". |
| Chromedriver.MajorIsLeadingComponent | src/auto_mudfish/driver.py:96 | The major version is a dot-free prefix of the full version, ending at a dot or at the end. |
| Chromedriver.ZipUrlsHoldVersion | src/auto_mudfish/driver.py:111-123 | The Chrome for Testing URL and the Google Storage URL each hold the version as a whole path segment `/<version>/`. |
| Chromedriver.ZipUrlsNameOneVersion | src/auto_mudfish/driver.py:111-123 | Each download URL template names exactly one version: different versions give different URLs. |
| Chromedriver.ProbeUrls | src/auto_mudfish/driver.py:131-138 | Three probe URLs, one per guessed version, in order. |
| Chromedriver.Heads | src/auto_mudfish/driver.py:139 | Each probe is a HEAD request. |
| Chromedriver.FirstHit | src/auto_mudfish/driver.py:137-147 | The first probe answered with 200, and no earlier probe was. |
| Chromedriver.ProbeTestVersions | src/auto_mudfish/driver.py:127-149 | Probes in order up to the first 200 and stops there. Raised probes are skipped. |
| Chromedriver.ResolveDownload | src/auto_mudfish/driver.py:101-155 | The version, URL and requests are exactly those of `DownloadChoice`. |
| Chromedriver.ChainAlwaysChooses | src/auto_mudfish/driver.py:151-155 | The chain always ends with a URL. When every request fails, the version is the major version. |
| Chromedriver.ChainStopsAtFirstAnswer | src/auto_mudfish/driver.py:104-125 | A 200 from an API leaves the later approaches unasked. |
| Chromedriver.ProbesOnlyAfterBothApisFail | src/auto_mudfish/driver.py:104-135 | A HEAD probe of a guessed version is made only when both release APIs failed. |
| Chromedriver.ProbesInOrder | src/auto_mudfish/driver.py:127-149 | After both APIs fail, the probes are HEAD requests for the guessed versions, in order. |
| Chromedriver.DownloadSpecificChromedriver | src/auto_mudfish/driver.py:58-171 | The registry queries, HTTP requests and the driver chosen or reused are exactly those `AcquisitionFor` describes. |
| Chromedriver.ExistingDriverReused | src/auto_mudfish/driver.py:157-171 | A driver already on disk is reused without any download. Otherwise the chosen URL is fetched into the version directory. |
| Chromedriver.ChromeOptions.constructor | src/auto_mudfish/driver.py:338 | New options hold no arguments. |
| Chromedriver.ChromeOptions.AddArgument | src/auto_mudfish/driver.py:339-348 | Appends one argument. |
| Chromedriver.AddHeadlessFlags | src/auto_mudfish/driver.py:339-348 | Appends the ten headless flags in order. |
| Chromedriver.ServiceFor | src/auto_mudfish/driver.py:352-356 | A non-empty executable path wins, then the caller's service, then the default service. |
| Chromedriver.ChromeDriver.constructor | src/auto_mudfish/driver.py:297-363 | In headless mode the flags go onto the caller's options, or onto fresh options when none were given. Otherwise the options are untouched. |
| Chromedriver.HeadlessFlagsShape | src/auto_mudfish/driver.py:339 | There are ten flags, led by `--headless=new`, and the legacy `--headless` is not among them. |
| AutomateMudfish.SessionClicks | auto_mudfish/automate_mudfish.py:81-83 | A browser session visits the admin page first and clicks at most twice. |
| AutomateMudfish.AutoStart | auto_mudfish/automate_mudfish.py:21-85 | Starts Mudfish as `StartPlan` says and returns when that fails. The HTTP login is tried and only logged. With a driver it logs in and connects, and returns `connect`'s report. |
| AutomateMudfish.LoggedArgs | auto_mudfish/automate_mudfish.py:147-148 | The logged arguments mask the password and keep everything else. |
| AutomateMudfish.AutomateExitCode | auto_mudfish/automate_mudfish.py:152-163 | Exits 1 iff `auto_start` raised. An interrupt exits 0. |
| MainScript.LoadCredentials | src/main.py:115-143 | A login is returned iff the stored record is an object with a truthy username and password. It carries those values and the stored admin page. |
| MainScript.StoredRecordLoads | src/main.py:115-143 | A record written by `store_credentials` with non-empty values loads back as the same login. |
| MainScript.GivenValuesWin | src/main.py:181-190 | Given values take precedence over stored ones. The stored admin page fills in only a missing one, and only when it is truthy. |
| MainScript.StoredLoginComplete | src/main.py:181-200 | Stored credentials make a complete login whenever neither value was given. |
| MainScript.RunMain | src/main.py:146-232 | Consults the store exactly when `main` does. Exits 1 on missing credentials, a failed start or a missing driver. Otherwise it runs the browser session on the merged login and returns `connect`'s report. |
| MainScript.CliCommand | src/main.py:338-358 | The first management flag wins, in the order setup, show, clear, cleanup. The usage error happens iff none is set, the store is not asked for, and the username or password is missing. |
| MainScript.CliExitCode | src/main.py:338-381 | Setup and clear exit 0 or 1 by their result, usage errors exit 2, and `main`'s own exit code passes through. Otherwise the exit code is 1 iff `main` raised. |
| MainScript.CliIgnoresStoredAdminpage | src/main.py:294-299 | From the command line the parsed admin page, default included, always wins over the stored one. |
| MainScript.AutomateHasCredentials | src/main.py:338-358 | An automation started without `--use-stored` has both a username and a password. |
| MainScript.LoggedCliArgs | src/main.py:361-363 | The logged arguments mask a non-empty password and keep everything else. |
| Gui.Reported | src/gui/gui.py:49-64 | An exception in a worker becomes a failure reading "Error: ..."; an emitted completion passes through. |
| Gui.ConnectWorker | src/gui/gui.py:66-143 | Each failure message appears exactly in its case. The worker reports success iff the HTTP login was tried, and it uses the browser iff a driver exists as well. |
| Gui.ConnectIgnoresHeadless | src/gui/gui.py:100-115 | The HTTP login's outcome changes neither the browser use nor the report. |
| Gui.ConnectMessages | src/gui/gui.py:116-143 | "connected" is reported iff the browser ran. The started-only message appears iff there was no driver. |
| Gui.DisconnectWorker | src/gui/gui.py:145-202 | Fails iff the stop button was pressed and the start button did not come back. Each success message appears exactly in its case. |
| Gui.CheckStatusWorker | src/gui/gui.py:204-256 | Fails iff no driver could be created. Otherwise it reports the button check's answer, with the timed-out case. |
| Gui.DisconnectedSaysConnected | src/gui/gui.py:770-773 | Every message the `elif` tests for also contains "connected". |
| Gui.ElifUnreachable | src/gui/gui.py:770-775 | As written, no message enables Connect while disabling Disconnect. |
| Gui.NotConnectedDisablesConnect | src/gui/gui.py:770-772 | As written, the report "Mudfish is not connected." disables Connect. |
| Gui.ButtonsIntended | src/gui/gui.py:762-780 | At least one button is always enabled, and a failure enables both. |
| Gui.IntendedButtons | src/gui/gui.py:768-775 | A disconnected report enables only Connect, a connected one only Disconnect, and any other report both. |
| Gui.IntendedDiffersOnlyOnDisconnect | src/gui/gui.py:768-775 | The intended rule differs from the written one exactly on successful disconnected reports. |
| Gui.NotConnectedOffersConnect | src/gui/gui.py:773-775 | With the intended rule, the "not connected" report offers Connect. |
| Gui.MudfishGui.constructor | src/gui/gui.py:268-309 | The window starts with only Connect enabled, status "Checking...", "Ready" in the status bar, the progress bar hidden and no worker. |
| Gui.MudfishGui.StartWorker | src/gui/gui.py:704-751 | Does nothing while a worker runs. Otherwise it starts the worker and shows the progress bar at 0. |
| Gui.MudfishGui.ConnectMudfish | src/gui/gui.py:704-719 | While a worker runs, nothing changes. Otherwise both buttons are disabled, the progress bar shows at 0, a connect worker is created and running, and the label, status bar and warnings stay as they were. |
| Gui.MudfishGui.DisconnectMudfish | src/gui/gui.py:721-736 | While a worker runs, nothing changes. Otherwise both buttons are disabled, the progress bar shows at 0, a disconnect worker is created and running, and the label, status bar and warnings stay as they were. |
| Gui.MudfishGui.CheckStatus | src/gui/gui.py:738-751 | While a worker runs, nothing changes. Otherwise the progress bar shows at 0 and a status worker is created and running; the buttons, label, status bar and warnings stay as they were. |
| Gui.ClicksWhileBusyIgnored | src/gui/gui.py:704-751 | From a fresh window, Connect then Disconnect and Check while the connect worker runs start only the connect worker; after it finishes, Disconnect starts the next. Label and status bar stay "Status: Checking..." and "Ready". |
| Gui.MudfishGui.UpdateStatus | src/gui/gui.py:753-756 | The message goes to the status bar, and nothing else changes. |
| Gui.MudfishGui.WorkerFinished | src/gui/gui.py:49-64 | The thread stops after emitting, and the next operation can start. |
| Gui.MudfishGui.OnOperationComplete | src/gui/gui.py:762-780 | Sets the buttons by the rule as written, `ButtonsAsWritten`: the "connected" test comes first, so a not-connected report disables Connect. It hides the progress bar and leaves "Ready" in the status bar. A success sets the status label; a failure sets "Status: Error" and adds a warning box. |

## Left out

- Logging, progress values, the log tab, the theme and every other Qt widget are not modelled.
- Threading and signals are not modelled. A worker runs to completion between `StartWorker` and `WorkerFinished`.
- The GUI workers are functions of the answers they receive (process started, credentials loaded, driver available, buttons shown). They do not drive the `Process` and `Connection` models.
- The outer exception handler of `_check_status` is left out: its one call before the inner handler, creating `MudfishConnection`, cannot raise.
- Elapsed wall-clock time in the status check is an input.
- The `_setup_credentials` worker and the GUI credential and settings tabs are not modelled.
- `setup_credentials`, `show_credentials` and `clear_credentials` in `src/main.py` interact with the console. Only their results enter `MainScript.CliExitCode`.
- The ZIP download, extraction and `os.walk` search for `chromedriver.exe` in `_download_specific_chromedriver` are not modelled. The model stops at the acquisition it settles on.
- `get_chrome_driver` is not modelled: its fallbacks to `webdriver_manager` and to the system driver depend only on libraries outside this model. Callers receive a driver or none.
- Exceptions from `os.listdir` and `os.makedirs` are not modelled, nor the outer `except Exception` of the cleanup.
- `list.sort` is modelled as a pure insertion sort on a sequence. The sort's result is the same; the in-place update is not captured.
- Chromedriver.DecimalValue counts a non-digit character as 0. It is used only by the corrected numeric version order; the code itself compares names as strings (see Findings).
- MainScript.TextOf turns a stored number, list or object into a fixed placeholder string. Only a hand-edited credentials file holds one.
- Text.Lower folds only ASCII letters; Python's `str.lower` also folds other scripts.
- Connection.MudfishConnection.Login: a `WebDriverException` raised while finding an element is modelled as a missing element, which ends the login the same way. Typing into a field and clicking the button never raise in the model: a field that is found but hidden still receives the keys, whereas Selenium raises `ElementNotInteractableException`, which `login` catches and which ends the login there.
- `_is_mudfish_running` is called only by the GUI's disconnect worker (src/gui/gui.py:153). `Gui.DisconnectWorker` takes its answer as an input. `auto_mudfish/connection.py` defines no such method, so against that class the call raises `AttributeError`, which `run` turns into the failure "Error: ..." (src/gui/gui.py:60-64). The model does not capture that failure path.
- Process.MudfishProcess.MudfishLauncherLnk: the shortcut path is the Programs folder with backslashes turned into `/`, then `/Mudfish Cloud VPN/Mudfish Launcher.lnk`. pathlib's normalisation is not modelled: dropping a trailing separator, repeated separators or `.` parts, and turning an empty folder into `.`. The folder the Windows shell reports is an absolute path without any of these.
- The partial effects of an exception raised in the middle of a Selenium or file operation are not modelled. Each operation either completes or reports its failure.
- JSON, DPAPI and base64 are one abstract codec. The only assumption made is that decoding undoes encoding.
- The top-level launchers, the installers and the build scripts are not part of this model.

## Findings

| source | as written | input that shows it | evidently intended | confidence | as-written member | corrected member |
|---|---|---|---|---|---|---|
| src/auto_mudfish/driver.py:44 | Version directory names are sorted as strings, so `"99"` ranks above `"131"`. `DriverCache.CleanupOldChromedrivers` prunes this way. | Directories `99`, `100`, `101`, `131`: driver 100 is deleted and driver 99, the oldest, is kept. | Keep the three newest versions, comparing dotted components as numbers: driver 99 is deleted. | not executed | Chromedriver.StringOrderDeletesNewer | Chromedriver.VersionOrderDeletesOldest |
| src/gui/gui.py:770-775 | The `if "connected"` test comes first, and every message containing "disconnected" or "not connected" also contains "connected". The `elif` never runs. `MudfishGui.OnOperationComplete` sets the buttons this way. | The status report "Mudfish is not connected." disables Connect and enables Disconnect. | A disconnected or not-connected report enables only Connect. A message such as "Mudfish is not currently connected." matches neither phrase and still disables Connect. | not executed | Gui.ElifUnreachable | Gui.NotConnectedOffersConnect |

/**
 * `MudfishConnection`: logging in to the Mudfish admin page, either through
 * the browser or with plain HTTP requests, and pressing the connect and
 * disconnect buttons of the web interface.
 *
 * The browser is the `Selenium.Browser` oracle. For the HTTP login the two
 * requests are oracles too: `get` gives the hidden inputs of the sign-in form
 * (the HTML parse included) or a request failure, `post` gives the response
 * to the submitted form or a request failure.
 */
module Connection {
  import opened Common
  import opened Text
  import opened Selenium

  const StopButton := ById("mudwd-vpn-stop-btn")
  const StartButton := ById("mudwd-vpn-start-btn")
  const DefaultDesktopAdminPage := "http://127.0.0.1:8282/signin.html"
  const DefaultRouterAdminPage := "http://192.168.1.1:8282/signin.html"
  /** The `poll_time` default of the button getters, in seconds. */
  const DefaultPollTime := 5

  const UsernameField := ById("username")
  const PasswordField := ById("password")
  const LoginButton := ByClassName("btn")

  /** `adminpage or DEFAULT_DESKTOP_ADMIN_PAGE`. */
  function AdminUrl(adminpage: Option<string>): (url: string)
    ensures url != ""
    ensures Present(adminpage) ==> url == adminpage.value
    ensures !Present(adminpage) ==> url == DefaultDesktopAdminPage
  {
    if Present(adminpage) then adminpage.value else DefaultDesktopAdminPage
  }

  // ---------------------------------------------------------------------------
  // The login form payload: a Python dict, whose keys keep insertion order
  // ---------------------------------------------------------------------------

  type Payload = seq<(string, string)>

  predicate HasKey(p: Payload, k: string) {
    exists i | 0 <= i < |p| :: p[i].0 == k
  }

  function Keys(p: Payload): (ks: seq<string>)
    ensures |ks| == |p| && forall i :: 0 <= i < |p| ==> ks[i] == p[i].0
  {
    seq(|p|, i requires 0 <= i < |p| => p[i].0)
  }

  predicate DistinctKeys(p: Payload) {
    forall i, j :: 0 <= i < j < |p| ==> p[i].0 != p[j].0
  }

  /** `p.get(k)`. */
  function Get(p: Payload, k: string): Option<string>
    decreases |p|
  {
    if p == [] then None else if p[0].0 == k then Some(p[0].1) else Get(p[1..], k)
  }

  /** `p[k] = v`: an existing key keeps its place, a new key goes last. */
  function Put(p: Payload, k: string, v: string): (r: Payload)
    decreases |p|
  {
    if p == [] then [(k, v)]
    else if p[0].0 == k then [(k, v)] + p[1..]
    else [p[0]] + Put(p[1..], k, v)
  }

  lemma {:induction false} GetPut(p: Payload, k: string, v: string, k': string)
    ensures Get(Put(p, k, v), k') == if k' == k then Some(v) else Get(p, k')
    decreases |p|
  {
    if p != [] && p[0].0 != k {
      GetPut(p[1..], k, v, k');
      assert Put(p, k, v)[1..] == Put(p[1..], k, v);
    }
  }

  lemma {:induction false} KeysPut(p: Payload, k: string, v: string)
    ensures Keys(Put(p, k, v)) == if HasKey(p, k) then Keys(p) else Keys(p) + [k]
    decreases |p|
  {
    if p == [] {
    } else if p[0].0 == k {
      assert HasKey(p, k);
    } else {
      KeysPut(p[1..], k, v);
      assert HasKey(p, k) <==> HasKey(p[1..], k) by {
        if HasKey(p, k) {
          var i :| 0 <= i < |p| && p[i].0 == k;
          assert p[1..][i - 1].0 == k;
        }
        if HasKey(p[1..], k) {
          var i :| 0 <= i < |p[1..]| && p[1..][i].0 == k;
          assert p[i + 1].0 == k;
        }
      }
      assert Keys(Put(p, k, v)) == [k0(p)] + Keys(Put(p[1..], k, v));
      assert Keys(p) == [k0(p)] + Keys(p[1..]);
    }
  }

  function k0(p: Payload): string
    requires p != []
  {
    p[0].0
  }

  lemma KeyInKeys(p: Payload, k: string)
    ensures HasKey(p, k) <==> k in Keys(p)
  {
    if k in Keys(p) {
      var i :| 0 <= i < |Keys(p)| && Keys(p)[i] == k;
      assert p[i].0 == k;
    }
  }

  /** The keys of `ks` in order of first occurrence: what inserting them into a dict leaves. */
  function FirstOccurrences(ks: seq<string>): (r: seq<string>)
    decreases |ks|
  {
    if ks == [] then []
    else
      var d := FirstOccurrences(ks[..|ks| - 1]);
      if ks[|ks| - 1] in d then d else d + [ks[|ks| - 1]]
  }

  predicate Distinct(ks: seq<string>) {
    forall i, j :: 0 <= i < j < |ks| ==> ks[i] != ks[j]
  }

  lemma {:induction false} FirstOccurrencesDistinct(ks: seq<string>)
    ensures Distinct(FirstOccurrences(ks))
    decreases |ks|
  {
    if ks != [] {
      var d := FirstOccurrences(ks[..|ks| - 1]);
      var last := ks[|ks| - 1];
      FirstOccurrencesDistinct(ks[..|ks| - 1]);
      if last !in d {
        var r := d + [last];
        assert FirstOccurrences(ks) == r;
        forall i, j | 0 <= i < j < |r| ensures r[i] != r[j] {
          if j == |d| {
            assert r[i] == d[i] && r[j] == last;
          } else {
            assert r[i] == d[i] && r[j] == d[j];
          }
        }
      } else {
        assert FirstOccurrences(ks) == d;
      }
    }
  }

  lemma BaseKeysDistinct()
    ensures FirstOccurrences(BaseKeys) == BaseKeys
  {
    assert "password"[0] != "username"[0];
    assert BaseKeys[..2] == ["username", "password"];
    assert ["username", "password"][..1] == ["username"];
    assert ["username"][..0] == [];
  }

  /** Inserting more keys never moves the keys already there. */
  lemma {:induction false} FirstOccurrencesPrefix(a: seq<string>, b: seq<string>)
    ensures var r := FirstOccurrences(a + b); |FirstOccurrences(a)| <= |r| && r[..|FirstOccurrences(a)|] == FirstOccurrences(a)
    decreases |b|
  {
    if b == [] {
      assert a + b == a;
    } else {
      var b' := b[..|b| - 1];
      assert (a + b)[..|a + b| - 1] == a + b';
      FirstOccurrencesPrefix(a, b');
    }
  }

  /** A hidden `<input>` of the sign-in form: its `name` and `value` attributes, if any. */
  datatype HiddenInput = HiddenInput(name: Option<string>, value: Option<string>)

  /** `hidden_input.get('name') and hidden_input.get('value')`: only such inputs are copied. */
  predicate Copied(h: HiddenInput) {
    Present(h.name) && Present(h.value)
  }

  /** The names of the copied inputs, in page order. */
  function CopiedNames(hidden: seq<HiddenInput>): seq<string>
    decreases |hidden|
  {
    if hidden == [] then []
    else
      var h := hidden[|hidden| - 1];
      CopiedNames(hidden[..|hidden| - 1]) + (if Copied(h) then [h.name.value] else [])
  }

  /** The value of the last copied input named `k`: the one that wins. */
  function LastCopied(hidden: seq<HiddenInput>, k: string): Option<string>
    decreases |hidden|
  {
    if hidden == [] then None
    else
      var h := hidden[|hidden| - 1];
      if Copied(h) && h.name.value == k then Some(h.value.value) else LastCopied(hidden[..|hidden| - 1], k)
  }

  const BaseKeys := ["username", "password", "_submit"]

  function BasePayload(username: string, password: string): Payload {
    [("username", username), ("password", password), ("_submit", "1")]
  }

  /** What the posted form holds under `k`: a copied hidden input wins over the credentials. */
  function Expected(username: string, password: string, hidden: seq<HiddenInput>, k: string): Option<string> {
    if LastCopied(hidden, k).Some? then LastCopied(hidden, k) else Get(BasePayload(username, password), k)
  }

  /** `payload` is the form built from the credentials and the page's hidden inputs. */
  ghost predicate PayloadFor(payload: Payload, username: string, password: string, hidden: seq<HiddenInput>) {
    && Keys(payload) == FirstOccurrences(BaseKeys + CopiedNames(hidden))
    && forall k :: Get(payload, k) == Expected(username, password, hidden, k)
  }

  lemma {:induction false} PayloadForStep(payload: Payload, username: string, password: string, hidden: seq<HiddenInput>, h: HiddenInput)
    requires PayloadFor(payload, username, password, hidden)
    ensures PayloadFor(if Copied(h) then Put(payload, h.name.value, h.value.value) else payload, username, password, hidden + [h])
  {
    var hs := hidden + [h];
    assert hs[..|hs| - 1] == hidden;
    if Copied(h) {
      var next := Put(payload, h.name.value, h.value.value);
      forall k ensures Get(next, k) == Expected(username, password, hs, k) {
        GetPut(payload, h.name.value, h.value.value, k);
      }
      KeysPut(payload, h.name.value, h.value.value);
      KeyInKeys(payload, h.name.value);
      assert BaseKeys + CopiedNames(hs) == (BaseKeys + CopiedNames(hidden)) + [h.name.value];
      var ks := BaseKeys + CopiedNames(hs);
      assert ks[..|ks| - 1] == BaseKeys + CopiedNames(hidden);
    } else {
      assert CopiedNames(hs) == CopiedNames(hidden);
    }
  }

  /** Before any hidden input, the form is the credentials and `_submit`. */
  lemma PayloadForBase(username: string, password: string)
    ensures PayloadFor(BasePayload(username, password), username, password, [])
  {
    BaseKeysDistinct();
    assert BaseKeys + CopiedNames([]) == BaseKeys;
  }

  /**
   * The payload loop of `login_without_driver`: the credentials and
   * `_submit`, then every copied hidden input in page order.
   */
  method BuildPayload(username: string, password: string, hidden: seq<HiddenInput>) returns (payload: Payload)
    ensures PayloadFor(payload, username, password, hidden)
  {
    payload := BasePayload(username, password);
    PayloadForBase(username, password);
    assert hidden[..0] == [];
    var i := 0;
    while i < |hidden|
      invariant 0 <= i <= |hidden|
      invariant PayloadFor(payload, username, password, hidden[..i])
    {
      var h := hidden[i];
      assert hidden[..i + 1] == hidden[..i] + [h];
      ghost var next := if Copied(h) then Put(payload, h.name.value, h.value.value) else payload;
      PayloadForStep(payload, username, password, hidden[..i], h);
      if h.name.Some? && h.name.value != "" && h.value.Some? && h.value.value != "" {
        payload := Put(payload, h.name.value, h.value.value);
      }
      assert payload == next;
      i := i + 1;
    }
    assert hidden[..|hidden|] == hidden;
  }

  /** The posted form starts with `username`, `password`, `_submit`, in that order. */
  lemma PayloadStartsWithCredentials(payload: Payload, username: string, password: string, hidden: seq<HiddenInput>)
    requires PayloadFor(payload, username, password, hidden)
    ensures |payload| >= 3 && payload[0].0 == "username" && payload[1].0 == "password" && payload[2].0 == "_submit"
  {
    BaseKeysDistinct();
    FirstOccurrencesPrefix(BaseKeys, CopiedNames(hidden));
    var ks := Keys(payload);
    assert ks[..3] == BaseKeys;
    assert ks[0] == BaseKeys[0] && ks[1] == BaseKeys[1] && ks[2] == BaseKeys[2];
  }

  /** No key occurs twice in the posted form. */
  lemma PayloadKeysDistinct(payload: Payload, username: string, password: string, hidden: seq<HiddenInput>)
    requires PayloadFor(payload, username, password, hidden)
    ensures DistinctKeys(payload)
  {
    FirstOccurrencesDistinct(BaseKeys + CopiedNames(hidden));
    var ks := Keys(payload);
    assert Distinct(ks);
    forall i, j | 0 <= i < j < |payload| ensures payload[i].0 != payload[j].0 {
      assert ks[i] != ks[j];
    }
  }

  /** `_submit` is "1" unless a copied hidden input of that name overrides it. */
  lemma SubmitFlag(payload: Payload, username: string, password: string, hidden: seq<HiddenInput>)
    requires PayloadFor(payload, username, password, hidden)
    requires LastCopied(hidden, "_submit") == None
    ensures Get(payload, "_submit") == Some("1")
  {
    var base := BasePayload(username, password);
    assert Get(base[2..], "_submit") == Some("1");
    assert base[1..][1..] == base[2..];
    assert Get(base[1..], "_submit") == Some("1");
    assert Get(base, "_submit") == Some("1");
    assert Get(payload, "_submit") == Expected(username, password, hidden, "_submit");
  }

  /** A copied hidden input overrides the key it names, credentials included. */
  lemma HiddenInputOverrides(payload: Payload, username: string, password: string, hidden: seq<HiddenInput>, h: HiddenInput)
    requires Copied(h)
    requires PayloadFor(payload, username, password, hidden + [h])
    ensures Get(payload, h.name.value) == Some(h.value.value)
  {
    var hs := hidden + [h];
    assert hs[|hs| - 1] == h;
  }

  /** An input lacking a name or a value changes nothing in the posted form. */
  lemma UncopiedInputIgnored(payload: Payload, username: string, password: string, hidden: seq<HiddenInput>, h: HiddenInput)
    requires !Copied(h)
    ensures PayloadFor(payload, username, password, hidden + [h]) <==> PayloadFor(payload, username, password, hidden)
  {
    var hs := hidden + [h];
    assert hs[..|hs| - 1] == hidden;
    assert CopiedNames(hs) == CopiedNames(hidden);
    forall k ensures LastCopied(hs, k) == LastCopied(hidden, k) {}
  }

  // ---------------------------------------------------------------------------
  // The success classifier of the HTTP login
  // ---------------------------------------------------------------------------

  /** A request, or the `requests.exceptions.RequestException` it raised. */
  datatype Http<T> = RequestFailed | Replied(body: T)

  /** What `login_without_driver` reads of the POST response: body, length of the redirect history, final URL, status code. */
  datatype PostResponse = PostResponse(text: string, history: nat, url: string, status: int)

  const SuccessIndicators := [
    "you are logged in",
    "welcome",
    "dashboard",
    "logout",
    "sign out",
    "success",
    "logged in successfully"
  ]

  /** Some success indicator occurs in the lowercased body. */
  predicate HasIndicator(text: string) {
    exists i | 0 <= i < |SuccessIndicators| :: Contains(Lower(text), SuccessIndicators[i])
  }

  /** The final URL still names a sign-in or login page (case-insensitive). */
  predicate StillOnLogin(url: string) {
    Contains(Lower(url), "signin") || Contains(Lower(url), "login")
  }

  /** The decision of `login_without_driver` once the POST has answered. */
  predicate LoginSucceeded(r: PostResponse) {
    var redirected := r.history > 0;
    var stillOnLogin := StillOnLogin(r.url);
    if HasIndicator(r.text) || (redirected && !stillOnLogin) then true
    else if r.status == 200 && !stillOnLogin then true
    else false
  }

  /** The classifier in one line: an indicator, or having left the login page by a redirect or with a 200. */
  lemma LoginSucceededIff(r: PostResponse)
    ensures LoginSucceeded(r) <==> HasIndicator(r.text) || (!StillOnLogin(r.url) && (r.history > 0 || r.status == 200))
  {
  }

  /** An indicator wins whatever the status, history and URL. */
  lemma IndicatorWins(r: PostResponse)
    requires HasIndicator(r.text)
    ensures LoginSucceeded(r)
  {
  }

  /** Without an indicator, a URL still naming the login page is a failure whatever the status or history. */
  lemma StillOnLoginFails(r: PostResponse)
    requires !HasIndicator(r.text) && StillOnLogin(r.url)
    ensures !LoginSucceeded(r)
  {
  }

  /** Without an indicator and without a redirect, only status 200 can succeed. */
  lemma NoRedirectNeeds200(r: PostResponse)
    requires !HasIndicator(r.text) && r.history == 0 && r.status != 200
    ensures !LoginSucceeded(r)
  {
  }

  /** Posting back to the default sign-in page without an indicator in the body always fails. */
  lemma {:induction false} DefaultPageIsLoginPage(text: string, history: nat, status: int)
    requires !HasIndicator(text)
    ensures !LoginSucceeded(PostResponse(text, history, DefaultDesktopAdminPage, status))
  {
    assert Lower(DefaultDesktopAdminPage) == DefaultDesktopAdminPage;
    assert OccursAt(DefaultDesktopAdminPage, "signin", 22);
    ContainsAt(Lower(DefaultDesktopAdminPage), "signin", 22);
  }

  /** The last indicator is redundant: a body containing it also contains "success". */
  lemma {:induction false} LastIndicatorSubsumed(text: string)
    requires Contains(Lower(text), "logged in successfully")
    ensures Contains(Lower(text), "success")
  {
    assert OccursAt("logged in successfully", "success", 10);
    ContainsAt("logged in successfully", "success", 10);
    ContainsTransitive(Lower(text), "logged in successfully", "success");
  }

  /**
   * `login_without_driver`: GET the sign-in page, build the form, POST it to
   * the same URL and classify the response. Every request failure yields
   * false. `sent` is the form posted, if the GET succeeded.
   */
  method LoginWithoutDriver(
    username: string, password: string, adminpage: Option<string>,
    get: string -> Http<seq<HiddenInput>>,
    post: (string, Payload) -> Http<PostResponse>
  ) returns (ok: bool, sent: Option<Payload>)
    ensures get(AdminUrl(adminpage)).RequestFailed? ==> !ok && sent == None
    ensures get(AdminUrl(adminpage)).Replied? ==>
      && sent.Some?
      && PayloadFor(sent.value, username, password, get(AdminUrl(adminpage)).body)
      && ok == (post(AdminUrl(adminpage), sent.value).Replied? && LoginSucceeded(post(AdminUrl(adminpage), sent.value).body))
  {
    var loginUrl := AdminUrl(adminpage);
    var page := get(loginUrl);
    if page.RequestFailed? {
      return false, None;
    }
    var payload := BuildPayload(username, password, page.body);
    sent := Some(payload);
    var response := post(loginUrl, payload);
    if response.RequestFailed? {
      return false, sent;
    }
    var r := response.body;
    var responseText := Lower(r.text);
    var loginSuccess := exists i | 0 <= i < |SuccessIndicators| :: Contains(responseText, SuccessIndicators[i]);
    var hasRedirect := r.history > 0;
    var stillOnLogin := Contains(Lower(r.url), "signin") || Contains(Lower(r.url), "login");
    if loginSuccess || (hasRedirect && !stillOnLogin) {
      ok := true;
    } else if r.status == 200 && !stillOnLogin {
      ok := true;
    } else {
      ok := false;
    }
  }

  /** A redirect to the main page with an empty body is a success (a case of the source's unit tests). */
  lemma {:induction false} RedirectToMainPageSucceeds()
    ensures LoginSucceeded(PostResponse("", 1, "http://127.0.0.1:8282/main.html", 302))
  {
    var main := "http://127.0.0.1:8282/main.html";
    assert Lower(main) == main by {
      assert Lower(main)[0] == 'h';
    }
    AbsentByChar(main, "signin", 2);
    AbsentByChar(main, "login", 2);
  }

  /** "You are logged in" with status 200 is a success (a case of the source's unit tests). */
  lemma {:induction false} LoggedInMessageSucceeds(url: string, history: nat, status: int)
    ensures LoginSucceeded(PostResponse("You are logged in", history, url, status))
  {
    assert Lower("You are logged in") == "you are logged in";
    assert OccursAt("you are logged in", SuccessIndicators[0], 0);
  }

  /** The body "Invalid credentials" holds none of the success indicators. */
  lemma {:induction false} InvalidCredentialsHasNoIndicator()
    ensures !HasIndicator("Invalid credentials")
  {
    LowerInvalidCredentials();
    NoIndicatorIn("invalid credentials");
  }

  lemma LowerInvalidCredentials()
    ensures Lower("Invalid credentials") == "invalid credentials"
  {
    assert Lower("Invalid credentials")[0] == 'i';
  }

  /** No success indicator occurs in a body without 'y', 'w', 'h', 'g' and 'u'. */
  lemma NoIndicatorIn(bad: string)
    requires 'y' !in bad && 'w' !in bad && 'h' !in bad && 'g' !in bad && 'u' !in bad
    ensures forall i | 0 <= i < |SuccessIndicators| :: !Contains(bad, SuccessIndicators[i])
  {
    AbsentByChar(bad, "you are logged in", 0);
    AbsentByChar(bad, "welcome", 0);
    AbsentByChar(bad, "dashboard", 3);
    AbsentByChar(bad, "logout", 2);
    AbsentByChar(bad, "sign out", 2);
    AbsentByChar(bad, "success", 1);
    AbsentByChar(bad, "logged in successfully", 2);
  }

  /** "Invalid credentials" with status 401 and no redirect is a failure (a case of the source's unit tests). */
  lemma {:induction false} InvalidCredentialsFails(url: string)
    ensures !LoginSucceeded(PostResponse("Invalid credentials", 0, url, 401))
  {
    InvalidCredentialsHasNoIndicator();
  }

  // ---------------------------------------------------------------------------
  // Browser login and the connect / disconnect buttons
  // ---------------------------------------------------------------------------

  /** The requests one button getter makes: an explicit wait, or an implicit wait then a lookup. */
  function LookupSteps(button: Locator, explicit: bool, pollTime: int): seq<Action> {
    if explicit then [WaitFor(button, pollTime)] else [ImplicitWait(pollTime), Find(button)]
  }

  /** The getter returns the button: it is present and displayed when looked up after history `t`. */
  predicate ButtonShown(dom: (seq<Action>, Locator) -> Lookup, t: seq<Action>, button: Locator, explicit: bool, pollTime: int) {
    dom(if explicit then t else t + [ImplicitWait(pollTime)], button) == Located(true)
  }

  /** `connect` / `disconnect`: look for `press`; if shown, click it and look for `confirm` once. */
  function ToggleSteps(dom: (seq<Action>, Locator) -> Lookup, t: seq<Action>, press: Locator, confirm: Locator): seq<Action> {
    var look := LookupSteps(press, false, DefaultPollTime);
    if ButtonShown(dom, t, press, false, DefaultPollTime) then look + [Click(press)] + LookupSteps(confirm, true, DefaultPollTime)
    else look
  }

  /** What `connect` / `disconnect` log. */
  datatype ToggleReport =
    | NoDriver      // "WebDriver not initialized ..."
    | AlreadyDone   // "... is already started/stopped!"
    | Done          // "... started/stopped successfully!"
    | NotDone       // "... could not be started/stopped!"

  function ToggleOutcome(dom: (seq<Action>, Locator) -> Lookup, t: seq<Action>, press: Locator, confirm: Locator): ToggleReport {
    var look := LookupSteps(press, false, DefaultPollTime);
    if !ButtonShown(dom, t, press, false, DefaultPollTime) then AlreadyDone
    else if ButtonShown(dom, t + look + [Click(press)], confirm, true, DefaultPollTime) then Done
    else NotDone
  }

  /** Click once and re-check once when the button is there; neither when it is not. */
  lemma {:induction false} ToggleClicksOnce(dom: (seq<Action>, Locator) -> Lookup, t: seq<Action>, press: Locator, confirm: Locator)
    ensures var steps := ToggleSteps(dom, t, press, confirm);
      var n := if ButtonShown(dom, t, press, false, DefaultPollTime) then 1 else 0;
      Clicks(steps) == n && WaitsFor(steps, confirm) == n
  {
    var look := LookupSteps(press, false, DefaultPollTime);
    var check := LookupSteps(confirm, true, DefaultPollTime);
    assert Clicks(look) == 0 && WaitsFor(look, confirm) == 0 by {
      assert look[..1] == [ImplicitWait(DefaultPollTime)];
      assert look[..1][..0] == [];
    }
    assert Clicks([Click(press)]) == 1 && WaitsFor([Click(press)], confirm) == 0 by {
      assert [Click(press)][..0] == [];
    }
    assert Clicks(check) == 0 && WaitsFor(check, confirm) == 1 by {
      assert check[..0] == [];
    }
    ClicksAppend(look, [Click(press)]);
    ClicksAppend(look + [Click(press)], check);
    WaitsForAppend(look, [Click(press)], confirm);
    WaitsForAppend(look + [Click(press)], check, confirm);
  }

  /** The requests of a browser `login` after history `t`; a missing element ends it (the exception is caught). */
  function LoginSteps(dom: (seq<Action>, Locator) -> Lookup, t: seq<Action>, username: string, password: string, adminpage: Option<string>): seq<Action> {
    var visit := [Visit(AdminUrl(adminpage))];
    if dom(t + visit, UsernameField).Missing? then visit + [Find(UsernameField)]
    else
      var typedUsername := visit + [Find(UsernameField), SendKeys(UsernameField, username)];
      if dom(t + typedUsername, PasswordField).Missing? then typedUsername + [Find(PasswordField)]
      else
        var typedPassword := typedUsername + [Find(PasswordField), SendKeys(PasswordField, password)];
        if dom(t + typedPassword, LoginButton).Missing? then typedPassword + [Find(LoginButton)]
        else typedPassword + [Find(LoginButton), Click(LoginButton)]
  }

  lemma {:induction false} NoClicks(actions: seq<Action>)
    requires forall i :: 0 <= i < |actions| ==> !actions[i].Click?
    ensures Clicks(actions) == 0
    decreases |actions|
  {
    if actions != [] {
      NoClicks(actions[..|actions| - 1]);
    }
  }

  /** Browser login visits the admin URL first, and clicks at most once: the login button, when the whole form was found. */
  lemma {:induction false} LoginClicksOnlyAtTheEnd(dom: (seq<Action>, Locator) -> Lookup, t: seq<Action>, username: string, password: string, adminpage: Option<string>)
    ensures var steps := LoginSteps(dom, t, username, password, adminpage);
      && steps[0] == Visit(AdminUrl(adminpage))
      && Clicks(steps) <= 1
      && (Clicks(steps) == 1 <==> steps[|steps| - 1] == Click(LoginButton))
  {
    var steps := LoginSteps(dom, t, username, password, adminpage);
    if steps[|steps| - 1] == Click(LoginButton) {
      NoClicks(steps[..|steps| - 1]);
    } else {
      NoClicks(steps);
    }
  }

  /** `MudfishConnection`: the Mudfish web interface driven through an optional browser. */
  class MudfishConnection {
    const webDriver: Browser?

    constructor (webDriver: Browser?)
      ensures this.webDriver == webDriver
    {
      this.webDriver := webDriver;
    }

    /** `login`: without a browser nothing happens; otherwise fill and submit the sign-in form. */
    method Login(username: string, password: string, adminpage: Option<string>)
      modifies webDriver
      ensures webDriver != null ==> webDriver.trace == old(webDriver.trace) + LoginSteps(webDriver.dom, old(webDriver.trace), username, password, adminpage)
    {
      if webDriver == null {
        return;
      }
      ghost var t := webDriver.trace;
      var adminUrl := if adminpage.Some? && adminpage.value != "" then adminpage.value else DefaultDesktopAdminPage;
      webDriver.Get(adminUrl);
      ghost var visit := [Visit(AdminUrl(adminpage))];
      assert webDriver.trace == t + visit;
      var usernameField := webDriver.FindElement(UsernameField);
      if usernameField.Missing? {
        assert webDriver.trace == t + (visit + [Find(UsernameField)]);
        return;
      }
      webDriver.SendKeysTo(UsernameField, username);
      ghost var typedUsername := visit + [Find(UsernameField), SendKeys(UsernameField, username)];
      assert webDriver.trace == t + typedUsername;
      var passwordField := webDriver.FindElement(PasswordField);
      if passwordField.Missing? {
        assert webDriver.trace == t + (typedUsername + [Find(PasswordField)]);
        return;
      }
      webDriver.SendKeysTo(PasswordField, password);
      ghost var typedPassword := typedUsername + [Find(PasswordField), SendKeys(PasswordField, password)];
      assert webDriver.trace == t + typedPassword;
      var loginButton := webDriver.FindElement(LoginButton);
      if loginButton.Missing? {
        assert webDriver.trace == t + (typedPassword + [Find(LoginButton)]);
        return;
      }
      webDriver.ClickOn(LoginButton);
      assert webDriver.trace == t + (typedPassword + [Find(LoginButton), Click(LoginButton)]);
    }

    /** The shared body of `get_connect_button` and `get_disconnect_button`. */
    method GetButton(button: Locator, explicit: bool, pollTime: int) returns (found: Option<Locator>)
      modifies webDriver
      ensures webDriver == null ==> found == None
      ensures webDriver != null ==>
        && webDriver.trace == old(webDriver.trace) + LookupSteps(button, explicit, pollTime)
        && found == if ButtonShown(webDriver.dom, old(webDriver.trace), button, explicit, pollTime) then Some(button) else None
    {
      if webDriver == null {
        return None;
      }
      var lookup: Lookup;
      if explicit {
        lookup := webDriver.WaitUntilPresent(button, pollTime);
      } else {
        webDriver.ImplicitlyWait(pollTime);
        lookup := webDriver.FindElement(button);
      }
      found := if lookup == Located(true) then Some(button) else None;
    }

    /** `get_connect_button`: the start button if present and displayed, else None. */
    method GetConnectButton(useStartCondition: bool, pollTime: int) returns (found: Option<Locator>)
      modifies webDriver
      ensures webDriver == null ==> found == None
      ensures webDriver != null ==>
        && webDriver.trace == old(webDriver.trace) + LookupSteps(StartButton, useStartCondition, pollTime)
        && found == if ButtonShown(webDriver.dom, old(webDriver.trace), StartButton, useStartCondition, pollTime) then Some(StartButton) else None
    {
      found := GetButton(StartButton, useStartCondition, pollTime);
    }

    /** `get_disconnect_button`: the stop button if present and displayed, else None. */
    method GetDisconnectButton(useStopCondition: bool, pollTime: int) returns (found: Option<Locator>)
      modifies webDriver
      ensures webDriver == null ==> found == None
      ensures webDriver != null ==>
        && webDriver.trace == old(webDriver.trace) + LookupSteps(StopButton, useStopCondition, pollTime)
        && found == if ButtonShown(webDriver.dom, old(webDriver.trace), StopButton, useStopCondition, pollTime) then Some(StopButton) else None
    {
      found := GetButton(StopButton, useStopCondition, pollTime);
    }

    /** `is_mudfish_connected`: false without a browser, else whether the stop button shows up. */
    method IsMudfishConnected() returns (connected: bool)
      modifies webDriver
      ensures webDriver == null ==> !connected
      ensures webDriver != null ==>
        && webDriver.trace == old(webDriver.trace) + LookupSteps(StopButton, true, DefaultPollTime)
        && connected == ButtonShown(webDriver.dom, old(webDriver.trace), StopButton, true, DefaultPollTime)
    {
      if webDriver == null {
        return false;
      }
      var button := GetDisconnectButton(true, DefaultPollTime);
      connected := button.Some?;
    }

    /** `is_mudfish_disconnected`: true without a browser, else whether the start button shows up. */
    method IsMudfishDisconnected() returns (disconnected: bool)
      modifies webDriver
      ensures webDriver == null ==> disconnected
      ensures webDriver != null ==>
        && webDriver.trace == old(webDriver.trace) + LookupSteps(StartButton, true, DefaultPollTime)
        && disconnected == ButtonShown(webDriver.dom, old(webDriver.trace), StartButton, true, DefaultPollTime)
    {
      if webDriver == null {
        return true;
      }
      var button := GetConnectButton(true, DefaultPollTime);
      disconnected := button.Some?;
    }

    /** `connect`: press the start button if it is there, then check once for the stop button. */
    method Connect() returns (report: ToggleReport)
      modifies webDriver
      ensures webDriver == null ==> report == NoDriver
      ensures webDriver != null ==>
        && webDriver.trace == old(webDriver.trace) + ToggleSteps(webDriver.dom, old(webDriver.trace), StartButton, StopButton)
        && report == ToggleOutcome(webDriver.dom, old(webDriver.trace), StartButton, StopButton)
    {
      if webDriver == null {
        return NoDriver;
      }
      var connectButton := GetConnectButton(false, DefaultPollTime);
      if connectButton.Some? {
        webDriver.ClickOn(StartButton);
        var connected := IsMudfishConnected();
        report := if connected then Done else NotDone;
      } else {
        report := AlreadyDone;
      }
    }

    /** `disconnect`: the mirror image of `connect`. */
    method Disconnect() returns (report: ToggleReport)
      modifies webDriver
      ensures webDriver == null ==> report == NoDriver
      ensures webDriver != null ==>
        && webDriver.trace == old(webDriver.trace) + ToggleSteps(webDriver.dom, old(webDriver.trace), StopButton, StartButton)
        && report == ToggleOutcome(webDriver.dom, old(webDriver.trace), StopButton, StartButton)
    {
      if webDriver == null {
        return NoDriver;
      }
      var disconnectButton := GetDisconnectButton(false, DefaultPollTime);
      if disconnectButton.Some? {
        webDriver.ClickOn(StopButton);
        var disconnected := IsMudfishDisconnected();
        report := if disconnected then Done else NotDone;
      } else {
        report := AlreadyDone;
      }
    }
  }
}

/**
  What the session functions of module Session promise: the requests a
  fresh login issues and in what order, how a stored session id is
  resumed, when the id is persisted, and that the agent always returns to
  `xmlHeaders` with `upgradeInsecureHeaders` untouched.
 */
module Properties {
  import opened Wrappers
  import opened Text
  import opened Wire
  import opened Session

  // ---------------------------------------------------------------------
  // Cookies on the wire
  // ---------------------------------------------------------------------

  /**
    After updateCookies the request carries `Cookie: sessionToken=T;SID=S`,
    or just `sessionToken=T` while there is no SID (cbn.go:78-82, agent.go:40-42).
   */
  lemma UpdateCookiesOnWire(env: Env, st: State)
    ensures var h := WireHeader(AgentOf(env, UpdateCookies(st)));
      && "Cookie" in h
      && h["Cookie"] == if st.sid == "" then "sessionToken=" + st.token
                        else "sessionToken=" + st.token + ";SID=" + st.sid
  {
    var a := AgentOf(env, UpdateCookies(st));
    WireHeaderEntries(a);
    if st.sid != "" {
      CookieHeader(a, st.token, st.sid);
    }
  }

  // ---------------------------------------------------------------------
  // Getter and setter
  // ---------------------------------------------------------------------

  /** The same call to two paths, when both URLs parse alike. */
  predicate SamePostModuloPath(o1: Out<string>, o2: Out<string>, url1: string, url2: string)
  {
    && o1.st == o2.st && o1.res == o2.res && |o1.log| == |o2.log|
    && forall i :: 0 <= i < |o1.log| ==>
         o1.log[i].url == url1 && o2.log[i].url == url2 && o1.log[i].(url := url2) == o2.log[i]
  }

  /** xmlGetter and xmlSetter differ only in the path they post to (cbn.go:200-205). */
  lemma GetterSetterDifferInPath(env: Env, st: State, fn: string, opt: seq<Values>)
    requires env.urlParses(env.baseUrl + GetterPath) == env.urlParses(env.baseUrl + SetterPath)
    ensures SamePostModuloPath(XmlGetter(env, st, fn, opt), XmlSetter(env, st, fn, opt),
                               env.baseUrl + GetterPath, env.baseUrl + SetterPath)
  {
  }

  // ---------------------------------------------------------------------
  // The login page
  // ---------------------------------------------------------------------

  /**
    The login page request carries no Cookie, the upgrade headers' Referer
    and `Upgrade-Insecure-Requests: 1` (cbn.go:25-33, cbn.go:149-150).
   */
  lemma LoginPageHeader(env: Env)
    ensures var h := WireHeader(Agent(UpgradeInsecureHeaders, env.baseUrl, env.userAgent));
      && "Cookie" !in h
      && h["Referer"] == "http://192.168.0.1/"
      && h["Upgrade-Insecure-Requests"] == "1"
  {
    WireHeaderEntries(Agent(UpgradeInsecureHeaders, env.baseUrl, env.userAgent));
  }

  /** Every request sent from a well-formed state goes out without the upgrade marker. */
  lemma XmlRequestHeader(env: Env, st: State)
    requires Wellformed(st)
    ensures "Upgrade-Insecure-Requests" !in WireHeader(AgentOf(env, st))
  {
    WireHeaderEntries(AgentOf(env, st));
    assert "Upgrade-Insecure-Requests" !in st.xml - {"Cookie"};
  }

  // ---------------------------------------------------------------------
  // Fresh login
  // ---------------------------------------------------------------------

  /** The login ends in success, a LoginFailed error, or an exit. */
  lemma LoginOutcomes(env: Env, st: State, page: Response)
    ensures var r := Login(env, st, page).res;
      r.Ok? ==> r.value == Authenticated || r.value.error.LoginFailed?
  {
  }

  /** The login parameters: the token, `fun=15`, and the credentials (cbn.go:161-164). */
  lemma LoginParams(token: string, env: Env)
    ensures Params(token, FLogin, [Credentials(env)]) ==
      map["token" := [token], "fun" := ["15"], "Username" := [env.username], "Password" := [env.password]]
  {
  }

  /** Four one-element logs, one after the other. */
  lemma FourSingles<T>(a: seq<T>, b: seq<T>, c: seq<T>, d: seq<T>)
    requires |a| == 1 && |b| == 1 && |c| == 1 && |d| == 1
    ensures a + b + c + d == [a[0], b[0], c[0], d[0]]
  {
    assert a == [a[0]] && b == [b[0]] && c == [c[0]] && d == [d[0]];
  }

  /** A setup that goes on is its four steps, each going on and issuing one request. */
  lemma SetupStages(env: Env, st: State)
    requires Setup(env, st).res.Ok?
    ensures var t := Refresh(env, st);
      var setup1 := XmlGetter(env, t.st, "24", []);
      var page := LoginPage(env, setup1.st);
      var setup3 := XmlGetter(env, page.st, "3", []);
      && t.res.Ok? && setup1.res.Ok? && page.res.Ok? && setup3.res.Ok?
      && Setup(env, st) == Out(setup3.st, [t.log[0], setup1.log[0], page.log[0], setup3.log[0]], page.res)
  {
    var t := Refresh(env, st);
    var setup1 := XmlGetter(env, t.st, "24", []);
    var page := LoginPage(env, setup1.st);
    var setup3 := XmlGetter(env, page.st, "3", []);
    var log := t.log + setup1.log + page.log + setup3.log;
    assert Setup(env, st) == Out(setup3.st, log, page.res);
    FourSingles(t.log, setup1.log, page.log, setup3.log);
  }

  /**
    Steps 1-4 of a fresh login (cbn.go:141-155) issue four requests in
    order: a GET of the base URL, getter 24 with the token the GET left,
    the login page under the upgrade headers, and getter 3 with the token
    the login page left; `Header` is on `xmlHeaders` for both getters.
   */
  lemma SetupRequests(env: Env, st: State)
    requires Wellformed(st)
    requires Setup(env, st).res.Ok?
    ensures var o := Setup(env, st);
      var t := Refresh(env, st);
      var p := LoginPage(env, XmlGetter(env, t.st, "24", []).st);
      && |o.log| == 4
      && o.log[0] == Expected("GET", env.baseUrl, WireHeader(AgentOf(env, st)), Raw(""))
      && o.log[1] == Invocation(env, t.st, GetterPath, "24", [])
      && o.log[2] == Expected("POST", env.baseUrl + LoginPagePath,
                              WireHeader(Agent(UpgradeInsecureHeaders, env.baseUrl, env.userAgent)), Raw(""))
      && o.log[3] == Invocation(env, p.st, GetterPath, "3", [])
      && Wellformed(t.st) && Wellformed(p.st)
  {
    SetupStages(env, st);
  }

  /** Only the third setup request, the login page, carries the upgrade marker, and it has no Cookie. */
  lemma SetupMarks(env: Env, st: State)
    requires Wellformed(st)
    requires Setup(env, st).res.Ok?
    ensures var o := Setup(env, st);
      && |o.log| == 4
      && "Cookie" !in o.log[2].header
      && "Upgrade-Insecure-Requests" in o.log[2].header
      && "Upgrade-Insecure-Requests" !in o.log[0].header
      && "Upgrade-Insecure-Requests" !in o.log[1].header
      && "Upgrade-Insecure-Requests" !in o.log[3].header
  {
    var t := Refresh(env, st);
    var page := LoginPage(env, XmlGetter(env, t.st, "24", []).st);
    SetupRequests(env, st);
    LoginPageHeader(env);
    XmlRequestHeader(env, st);
    XmlRequestHeader(env, t.st);
    XmlRequestHeader(env, page.st);
  }

  /**
    A fresh login that does not exit issues exactly five requests, in the
    order of cbn.go:141-165: the four of SetupRequests, then the login
    setter with the token the setup left, `fun=15` and the credentials.
    Only the third, the login page, goes out under the upgrade headers, and
    it carries no Cookie.
   */
  lemma NewSIDRequests(env: Env, st: State)
    requires Wellformed(st)
    requires env.username != "" && env.password != ""
    requires NewSID(env, st).res.Ok?
    ensures var o := NewSID(env, st);
      var s := Setup(env, st);
      && |o.log| == 5
      && o.log[..4] == s.log
      && "Cookie" !in o.log[2].header
      && o.log[4] == Invocation(env, s.st, SetterPath, FLogin, [Credentials(env)])
      && "Upgrade-Insecure-Requests" in o.log[2].header
      && "Upgrade-Insecure-Requests" !in o.log[0].header
      && "Upgrade-Insecure-Requests" !in o.log[1].header
      && "Upgrade-Insecure-Requests" !in o.log[3].header
      && "Upgrade-Insecure-Requests" !in o.log[4].header
  {
    var s := Setup(env, st);
    SetupMarks(env, st);
    var l := Login(env, s.st, s.res.value);
    NewSIDStages(env, st);
    XmlRequestHeader(env, s.st);
    var log := s.log + l.log;
    assert log[..4] == s.log && log[4] == l.log[0];
    assert log[0] == s.log[0] && log[1] == s.log[1] && log[2] == s.log[2] && log[3] == s.log[3];
  }

  /** A fresh login that goes on is the setup followed by the login's one request. */
  lemma NewSIDStages(env: Env, st: State)
    requires env.username != "" && env.password != ""
    requires NewSID(env, st).res.Ok?
    ensures var s := Setup(env, st);
      && s.res.Ok?
      && var l := Login(env, s.st, s.res.value);
      && |l.log| == 1
      && NewSID(env, st) == Out(l.st, s.log + l.log, l.res)
  {
  }

  /** Without both credentials NewSID fails at once and issues no request (cbn.go:136-138). */
  lemma MissingCredentials(env: Env, st: State)
    ensures (env.username == "" || env.password == "") <==>
            NewSID(env, st).res == Ok(Failed(Session.MissingCredentials))
    ensures env.username == "" || env.password == "" ==>
            NewSID(env, st).log == [] && NewSID(env, st).st == st
  {
    if env.username != "" && env.password != "" {
      var s := Setup(env, st);
      if s.res.Ok? {
        LoginOutcomes(env, s.st, s.res.value);
      }
    }
  }
  // ---------------------------------------------------------------------
  // The login reply
  // ---------------------------------------------------------------------

  /** `successful;SID=v` and the like: the SID is what follows the first `=` of the second field. */
  lemma {:induction false} ParseSidField(a: string, key: string, v: string)
    requires ';' !in a && ';' !in key && '=' !in key && ';' !in v && '=' !in v
    ensures ParseSid(a + ";" + key + "=" + v) == Some(v)
  {
    assert a + ";" + key + "=" + v == a + [';'] + (key + "=" + v);
    SplitAtFirst(a, key + "=" + v, ';');
    SplitNoSeparator(key + "=" + v, ';');
    assert Split(a + ";" + key + "=" + v, ';')[1] == key + "=" + v;
    assert key + "=" + v == key + ['='] + v;
    SplitAtFirst(key, v, '=');
    SplitNoSeparator(v, '=');
  }

  /** A reply without `;` has no second field: the index panics (cbn.go:172). */
  lemma ParseSidNoField(s: string)
    requires ';' !in s
    ensures ParseSid(s) == None
  {
    SplitNoSeparator(s, ';');
  }

  /** A second field without `=` panics too. */
  lemma ParseSidNoEquals(a: string, b: string)
    requires ';' !in a && ';' !in b && '=' !in b
    ensures ParseSid(a + ";" + b) == None
  {
    assert a + ";" + b == a + [';'] + b;
    SplitAtFirst(a, b, ';');
    SplitNoSeparator(b, ';');
    SplitNoSeparator(b, '=');
  }

  /**
    A reply without "successful" is returned as a LoginFailed error with
    that body, and the SID and the session id file stay as they were
    (cbn.go:167-171).
   */
  lemma LoginRejected(env: Env, st: State, page: Response, body: string)
    requires !Contains(body, "successful")
    ensures var o := CompleteLogin(env, st, page, body);
      && o.res == Ok(Failed(LoginFailed(body)))
      && o.st == st
  {
  }

  /**
    A reply with "successful" and a SID sets the SID, applies the login
    page response `page` again, and persists the SID exactly when a session
    id file is configured; a failed write still counts as success
    (cbn.go:172-183).
   */
  lemma SidAccepted(env: Env, st: State, page: Response, body: string, v: string)
    requires Contains(body, "successful") && ParseSid(body) == Some(v)
    requires |page.cookies| == 0 || page.cookies[0].name == "sessionToken"
    ensures var o := CompleteLogin(env, st, page, body);
      && o.res == Ok(Authenticated)
      && o.st.sid == v
      && o.st.token == (if |page.cookies| == 0 then st.token else page.cookies[0].value)
      && Header(o.st) == (if |page.cookies| == 0 then Header(st)
                          else Header(st)["Cookie" := CookieValues(page.cookies[0].value, v)])
      && (st.active == Xml ==> o.st.upgrade == st.upgrade)
      && (st.active == UpgradeInsecure ==> o.st.xml == st.xml)
      && o.st.active == st.active && o.st.script == st.script
      && o.st.writes == st.writes + (if env.sidFile == "" then [] else [v])
      && o.st.file == (if env.sidFile == "" || env.writeFails then st.file else Present(v))
  {
  }

  /** The reply `successful;SID=v` is accepted with SID `v` (cbn.go:166-183). */
  lemma LoginAccepted(env: Env, st: State, page: Response, v: string)
    requires ';' !in v && '=' !in v
    requires |page.cookies| == 0 || page.cookies[0].name == "sessionToken"
    ensures var o := CompleteLogin(env, st, page, "successful;SID=" + v);
      && o.res == Ok(Authenticated)
      && o.st.sid == v
      && o.st.token == (if |page.cookies| == 0 then st.token else page.cookies[0].value)
      && Header(o.st) == (if |page.cookies| == 0 then Header(st)
                          else Header(st)["Cookie" := CookieValues(page.cookies[0].value, v)])
      && (st.active == Xml ==> o.st.upgrade == st.upgrade)
      && (st.active == UpgradeInsecure ==> o.st.xml == st.xml)
      && o.st.active == st.active && o.st.script == st.script
      && o.st.writes == st.writes + (if env.sidFile == "" then [] else [v])
      && o.st.file == (if env.sidFile == "" || env.writeFails then st.file else Present(v))
  {
    var body := "successful;SID=" + v;
    assert body == "successful" + ";" + "SID" + "=" + v;
    ParseSidField("successful", "SID", v);
    assert body == "successful" + (";SID=" + v);
    ContainsPrefix("successful", ";SID=" + v);
    SidAccepted(env, st, page, body, v);
  }

  /** A reply with "successful" but no `;` ends the program. */
  lemma LoginPanics(env: Env, st: State, page: Response, body: string)
    requires Contains(body, "successful") && ';' !in body
    ensures CompleteLogin(env, st, page, body).res == Halt(SidIndexOutOfRange)
  {
    ParseSidNoField(body);
  }

  // ---------------------------------------------------------------------
  // Authenticate
  // ---------------------------------------------------------------------

  /**
    Authenticate logs in afresh when no session id file is configured or
    it does not exist, and also when the stored id has at most four
    characters; it returns an error, issuing nothing, when the file exists
    but cannot be read (cbn.go:107-125).
   */
  lemma AuthenticateRoutes(env: Env, st: State)
    ensures env.sidFile == "" || st.file.Missing? ==> Authenticate(env, st) == NewSID(env, st)
    ensures env.sidFile != "" && st.file.Present? && |st.file.data| <= ShortSid ==>
            Authenticate(env, st) == NewSID(env, st)
    ensures env.sidFile != "" && st.file.Unreadable? ==>
            Authenticate(env, st) == Out(st, [], Ok(Failed(SidFileUnreadable)))
  {
  }

  /**
    Resuming with a stored id of more than four characters: the id becomes
    the SID, `Cookie` is replaced by `SID=<id>` alone, and exactly one GET
    of the base URL goes out. Authentication then succeeds whatever the
    body, unless the reply ends the program (cbn.go:126-131).
   */
  lemma ResumeStoredSid(env: Env, st: State, d: string)
    requires env.sidFile != "" && st.file == Present(d) && |d| > ShortSid
    requires Wellformed(st)
    ensures var o := Authenticate(env, st);
      && o.st.sid == d
      && |o.log| <= 1
      && (env.urlParses(env.baseUrl) <==> |o.log| == 1)
      && (o.log != [] ==>
            && o.log[0] == Expected("GET", env.baseUrl,
                                    WireHeader(Agent(st.xml["Cookie" := ["SID=" + d]], env.baseUrl, env.userAgent)),
                                    Raw(""))
            && o.log[0].header["Cookie"] == "SID=" + d)
      && (o.res == Ok(Authenticated) <==>
            && env.urlParses(env.baseUrl)
            && st.script != [] && st.script[0].Delivered?
            && (|st.script[0].response.cookies| == 0 ||
                st.script[0].response.cookies[0].name == "sessionToken"))
      && (o.res.Ok? ==> o.res == Ok(Authenticated) && Wellformed(o.st))
  {
    var s1 := SetHeader(st.(sid := d), "Cookie", ["SID=" + d]);
    WireHeaderEntries(AgentOf(env, s1));
    assert env.baseUrl + "" == env.baseUrl;
  }
}

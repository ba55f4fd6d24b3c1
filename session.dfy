/**
  The session-authentication state machine of cbn.go as functions on a
  `State` value. Each function returns the new state, the requests it
  issued (an `Out`), and either a value or the reason the program exits
  (`log.Fatalf`, or an index panic). The imperative agent in module Cbn is
  proved to behave exactly like these functions.
 */
module Session {
  import opened Wrappers
  import opened Text
  import opened Wire

  // ---------------------------------------------------------------------
  // Constants of cbn.go
  // ---------------------------------------------------------------------

  /** The package-level map `xmlHeaders`, as declared (no Cookie entry yet). */
  const XmlHeaders: Values := map[
    "Referer" := ["http://192.168.0.1/common_page/login.html"],
    "Content-Type" := ["application/x-www-form-urlencoded; charset=UTF-8"],
    "X-Requested-With" := ["XMLHttpRequest"],
    "Connection" := ["keep-alive"],
    "Accept" := ["application/xml, text/xml, */*; q=0.01"],
    "Accept-Language" := ["en-US,en;q=0.5"],
    "Accept-Encoding" := ["gzip, deflate"]
  ]

  /** The package-level map `upgradeInsecureHeaders`, as declared. */
  const UpgradeInsecureHeaders: Values := map[
    "Referer" := ["http://192.168.0.1/"],
    "Connection" := ["keep-alive"],
    "Accept" := ["text/html,application/xhtml+xml,application/xml;q=0.9,*/*;q=0.8"],
    "Accept-Language" := ["en-US,en;q=0.5"],
    "Accept-Encoding" := ["gzip, deflate"],
    "Upgrade-Insecure-Requests" := ["1"],
    "If-Modified-Since" := ["Thu, 29 Mar 2018 02:17:52 GMT"]
  ]

  /** The user agent string every request carries. */
  const FirefoxUserAgent := "Mozilla/5.0 (X11; Linux x86_64; rv:60.0) Gecko/20100101 Firefox/60.0"

  /** DefaultUserConfig.SIDFile. */
  const DefaultSidFile := ".cbn_sid"

  /** The opcode of the login function. */
  const FLogin := "15"

  const GetterPath := "/xml/getter.xml"
  const SetterPath := "/xml/setter.xml"
  const LoginPagePath := "/common_page/login.html"

  /** A stored session id of at most this many characters is discarded. */
  const ShortSid := 4

  // ---------------------------------------------------------------------
  // State
  // ---------------------------------------------------------------------

  /** Which of the two package-level maps `Agent.Header` points at. */
  datatype HeaderSet = Xml | UpgradeInsecure

  /** The session id file as the operating system reports it. */
  datatype FileState = Missing | Unreadable | Present(data: string)

  /** The errors `Authenticate` returns to its caller. */
  datatype AuthError = MissingCredentials | SidFileUnreadable | LoginFailed(body: string)

  /** What `Authenticate` returns when the program goes on: nil or an error. */
  datatype Status = Authenticated | Failed(error: AuthError)

  /** Why the program exits. */
  datatype Fatal =
    | RequestInvalid      // http.NewRequest failed (agent.go:35-37)
    | TransportFailed     // Client.Do failed (agent.go:48-50)
    | NoSessionToken      // first cookie not named sessionToken (cbn.go:98-100)
    | SidIndexOutOfRange  // login reply has "successful" but not the `;..=..` shape (cbn.go:172)

  datatype Res<T> = Ok(value: T) | Halt(cause: Fatal)

  /**
    Everything the agent can change: its `Token` and `SID`, the contents of
    the two package-level header maps, which one is active, the replies the
    device has still to give, the session id file and the writes made to it.
   */
  datatype State = State(
    token: string,
    sid: string,
    xml: Values,
    upgrade: Values,
    active: HeaderSet,
    script: seq<Reply>,
    file: FileState,
    writes: seq<string>)

  /**
    What stays fixed: the credentials, the configured `SIDFile`, the base
    URL and user agent, net/url's verdict on a URL, and whether writing the
    session id file fails.
   */
  datatype Env = Env(
    username: string,
    password: string,
    sidFile: string,
    baseUrl: string,
    userAgent: string,
    urlParses: string -> bool,
    writeFails: bool)

  /** A step's new state, the requests it issued, and its result. */
  datatype Out<T> = Out(st: State, log: seq<Expected>, res: Res<T>)

  /** The state of a newly constructed agent (NewCBNAgent, cbn.go:59-75). */
  function Initial(script: seq<Reply>, file: FileState): State
  {
    State("", "", XmlHeaders, UpgradeInsecureHeaders, Xml, script, file, [])
  }

  /**
    The states the agent is in between public calls: `Header` is
    `xmlHeaders`, nothing has been written into `upgradeInsecureHeaders`,
    and `xmlHeaders` holds its declared entries and at most a Cookie.
   */
  predicate Wellformed(st: State)
  {
    && st.active == Xml && st.upgrade == UpgradeInsecureHeaders
    && st.xml - {"Cookie"} == XmlHeaders
  }

  /** Writing Cookie leaves every other entry of a map as it was. */
  lemma CookieEntryOnly(m: Values, val: seq<string>)
    ensures m["Cookie" := val] - {"Cookie"} == m - {"Cookie"}
  {
  }

  /** The map `Header` points at. */
  function Header(st: State): Values
  {
    if st.active == Xml then st.xml else st.upgrade
  }

  /** `cbn.Header[key] = val`: the write lands in whichever map is active. */
  function SetHeader(st: State, key: string, val: seq<string>): (r: State)
    ensures Header(r) == Header(st)[key := val]
    ensures r.active == st.active && r.token == st.token && r.sid == st.sid
    ensures r.script == st.script && r.file == st.file && r.writes == st.writes
    ensures st.active == Xml ==> r.upgrade == st.upgrade
    ensures st.active == UpgradeInsecure ==> r.xml == st.xml
    ensures Wellformed(st) && key == "Cookie" ==> Wellformed(r)
  {
    CookieEntryOnly(st.xml, val);
    if st.active == Xml then st.(xml := st.xml[key := val])
    else st.(upgrade := st.upgrade[key := val])
  }

  // ---------------------------------------------------------------------
  // Cookies and responses
  // ---------------------------------------------------------------------

  /** The Cookie values updateCookies computes (cbn.go:78-81). */
  function CookieValues(token: string, sid: string): (c: seq<string>)
    ensures |c| == (if sid == "" then 1 else 2)
    ensures c[0] == "sessionToken=" + token
    ensures sid != "" ==> c[1] == "SID=" + sid
  {
    ["sessionToken=" + token] + (if sid != "" then ["SID=" + sid] else [])
  }

  /**
    updateCookies (cbn.go:77-83): Cookie in the active map becomes the
    token and SID cookie values; only the header maps change.
   */
  function UpdateCookies(st: State): (r: State)
    ensures Header(r) == Header(st)["Cookie" := CookieValues(st.token, st.sid)]
    ensures r == st.(xml := r.xml, upgrade := r.upgrade)
    ensures st.active == Xml ==> r.upgrade == st.upgrade
    ensures st.active == UpgradeInsecure ==> r.xml == st.xml
    ensures Wellformed(st) ==> Wellformed(r)
  {
    SetHeader(st, "Cookie", CookieValues(st.token, st.sid))
  }

  /**
    updateSession (cbn.go:86-104): a response without cookies changes
    nothing; otherwise its first cookie must be `sessionToken`, whose value
    becomes the token. The body is returned either way.
   */
  function UpdateSession(st: State, rsp: Response): (o: Out<string>)
    ensures o.log == []
    ensures o.res.Halt? <==> |rsp.cookies| > 0 && rsp.cookies[0].name != "sessionToken"
    ensures o.res.Halt? ==> o.res.cause == NoSessionToken && o.st == st
    ensures o.res.Ok? ==> o.res.value == rsp.body
    ensures o.res.Ok? && |rsp.cookies| == 0 ==> o.st == st
    ensures o.res.Ok? && |rsp.cookies| > 0 ==>
      && o.st.token == rsp.cookies[0].value
      && Header(o.st) == Header(st)["Cookie" := CookieValues(rsp.cookies[0].value, st.sid)]
    ensures o.st.sid == st.sid && o.st.active == st.active && o.st.script == st.script
    ensures o.st.file == st.file && o.st.writes == st.writes
    ensures st.active == Xml ==> o.st.upgrade == st.upgrade
    ensures st.active == UpgradeInsecure ==> o.st.xml == st.xml
    ensures Wellformed(st) ==> Wellformed(o.st)
  {
    if |rsp.cookies| == 0 then Out(st, [], Ok(rsp.body))
    else if rsp.cookies[0].name != "sessionToken" then Out(st, [], Halt(NoSessionToken))
    else Out(UpdateCookies(st.(token := rsp.cookies[0].value)), [], Ok(rsp.body))
  }

  // ---------------------------------------------------------------------
  // Requests
  // ---------------------------------------------------------------------

  /** The Agent that NewRequest reads. */
  function AgentOf(env: Env, st: State): Agent
  {
    Agent(Header(st), env.baseUrl, env.userAgent)
  }

  /** `Agent.Do(NewRequest(...))` (agent.go:33-52): build, send, take the next reply. */
  function Send(env: Env, st: State, verb: string, path: string, body: Body): (o: Out<Response>)
    ensures o.st == st.(script := o.st.script)
    ensures !env.urlParses(env.baseUrl + path) <==> o.log == []
    ensures !env.urlParses(env.baseUrl + path) ==> o == Out(st, [], Halt(RequestInvalid))
    ensures env.urlParses(env.baseUrl + path) ==>
      && o.log == [Expected(verb, env.baseUrl + path, WireHeader(AgentOf(env, st)), body)]
      && (o.res, o.st.script) == (if st.script != [] && st.script[0].Delivered?
                                  then Ok(st.script[0].response) else Halt(TransportFailed),
                                  if st.script == [] then [] else st.script[1..])
  {
    if !env.urlParses(env.baseUrl + path) then Out(st, [], Halt(RequestInvalid))
    else
      var e := Expected(verb, env.baseUrl + path, WireHeader(AgentOf(env, st)), body);
      var (reply, rest) := Next(st.script);
      var st' := st.(script := rest);
      match reply
      case Delivered(rsp) => Out(st', [e], Ok(rsp))
      case TransportFailure => Out(st', [e], Halt(TransportFailed))
  }

  /**
    The parameters postFunction sends (cbn.go:188-196): `token` and `fun`,
    overridden key by key by the extra map when exactly one is given.
   */
  function Params(token: string, fn: string, opt: seq<Values>): (v: Values)
    ensures v.Keys == {"token", "fun"} + (if |opt| == 1 then opt[0].Keys else {})
    ensures |opt| == 1 ==> forall k :: k in opt[0] ==> v[k] == opt[0][k]
    ensures "token" !in (if |opt| == 1 then opt[0] else map[]) ==> v["token"] == [token]
    ensures "fun" !in (if |opt| == 1 then opt[0] else map[]) ==> v["fun"] == [fn]
  {
    map["token" := [token], "fun" := [fn]] + (if |opt| == 1 then opt[0] else map[])
  }

  /** The parameters once the keys in `done` of the extra map have been copied over. */
  ghost function ParamsSoFar(token: string, fn: string, extra: Values, done: set<string>): Values
    requires done <= extra.Keys
  {
    map["token" := [token], "fun" := [fn]] + map k | k in done :: extra[k]
  }

  lemma ParamsSoFarNone(token: string, fn: string, extra: Values)
    ensures ParamsSoFar(token, fn, extra, {}) == map["token" := [token], "fun" := [fn]]
  {
  }

  lemma ParamsSoFarStep(token: string, fn: string, extra: Values, done: set<string>, k: string)
    requires done <= extra.Keys && k in extra
    ensures ParamsSoFar(token, fn, extra, done + {k}) == ParamsSoFar(token, fn, extra, done)[k := extra[k]]
  {
  }

  lemma ParamsSoFarAll(token: string, fn: string, extra: Values, done: set<string>)
    requires done <= extra.Keys && extra.Keys - done == {}
    ensures ParamsSoFar(token, fn, extra, done) == Params(token, fn, [extra])
  {
    forall k | k in extra.Keys ensures k in done {
      assert k !in extra.Keys - done;
    }
    assert done == extra.Keys;
  }

  /**
    `updateSession(Agent.Do(NewRequestV("POST", uri, values)))`
    (cbn.go:197-198): one form POST under the active headers, whose reply's
    body is the result and whose cookies updateSession applies. SID, file and
    the choice of `Header` stay.
   */
  function Post(env: Env, st: State, uri: string, values: Values): (o: Out<string>)
    ensures |o.log| <= 1 && (o.res.Ok? ==> |o.log| == 1)
    ensures env.urlParses(env.baseUrl + uri) <==> |o.log| == 1
    ensures o.log != [] ==>
      o.log[0] == Expected("POST", env.baseUrl + uri, WireHeader(AgentOf(env, st)), Form(values))
    ensures o.res.Ok? ==>
      st.script != [] && st.script[0].Delivered? && o.res.value == st.script[0].response.body
    ensures o.res.Ok? ==> o.st == UpdateSession(st.(script := st.script[1..]), st.script[0].response).st
    ensures o.st.sid == st.sid && o.st.active == st.active && o.st.file == st.file && o.st.writes == st.writes
    ensures st.active == Xml ==> o.st.upgrade == st.upgrade
    ensures Wellformed(st) ==> Wellformed(o.st)
  {
    var sent := Send(env, st, "POST", uri, Form(values));
    match sent.res
    case Halt(c) => Out(sent.st, sent.log, Halt(c))
    case Ok(rsp) =>
      var u := UpdateSession(sent.st, rsp);
      Out(u.st, sent.log, u.res)
  }

  /**
    The request postFunction sends from state `st`: the current token,
    `fun` and the extra parameters, posted to `uri` under the active headers.
   */
  function Invocation(env: Env, st: State, uri: string, fn: string, opt: seq<Values>): Expected
  {
    Expected("POST", env.baseUrl + uri, WireHeader(AgentOf(env, st)), Form(Params(st.token, fn, opt)))
  }

  /** postFunction (cbn.go:187-199): one Invocation, sent when the URL parses. */
  function PostFunction(env: Env, st: State, fn: string, uri: string, opt: seq<Values>): (o: Out<string>)
    ensures |o.log| <= 1 && (o.res.Ok? ==> |o.log| == 1)
    ensures env.urlParses(env.baseUrl + uri) <==> |o.log| == 1
    ensures o.log != [] ==> o.log[0] == Invocation(env, st, uri, fn, opt)
    ensures Wellformed(st) ==> Wellformed(o.st)
  {
    Post(env, st, uri, Params(st.token, fn, opt))
  }

  /** xmlGetter (cbn.go:203-205): the Invocation posted to the getter. */
  function XmlGetter(env: Env, st: State, fn: string, opt: seq<Values>): (o: Out<string>)
    ensures |o.log| <= 1 && (o.res.Ok? ==> |o.log| == 1)
    ensures o.log != [] ==> o.log[0] == Invocation(env, st, GetterPath, fn, opt)
    ensures Wellformed(st) ==> Wellformed(o.st)
  {
    PostFunction(env, st, fn, GetterPath, opt)
  }

  /** xmlSetter (cbn.go:200-202): the Invocation posted to the setter. */
  function XmlSetter(env: Env, st: State, fn: string, opt: seq<Values>): (o: Out<string>)
    ensures |o.log| <= 1 && (o.res.Ok? ==> |o.log| == 1)
    ensures o.log != [] ==> o.log[0] == Invocation(env, st, SetterPath, fn, opt)
    ensures Wellformed(st) ==> Wellformed(o.st)
  {
    PostFunction(env, st, fn, SetterPath, opt)
  }

  // ---------------------------------------------------------------------
  // Fresh login
  // ---------------------------------------------------------------------

  /** The credentials map of the login call (cbn.go:161-164). */
  function Credentials(env: Env): Values
  {
    map["Username" := [env.username], "Password" := [env.password]]
  }

  /**
    `updateSession(Agent.Do(NewRequest("GET", "", "")))` (cbn.go:141-142,
    cbn.go:129-130): one GET of the base URL with an empty body, which may
    rotate the session token.
   */
  function Refresh(env: Env, st: State): (o: Out<string>)
    ensures |o.log| <= 1 && (o.res.Ok? ==> |o.log| == 1)
    ensures env.urlParses(env.baseUrl) <==> |o.log| == 1
    ensures o.log != [] ==> o.log[0] == Expected("GET", env.baseUrl, WireHeader(AgentOf(env, st)), Raw(""))
    ensures o.res.Ok? ==> st.script != [] && st.script[0].Delivered? &&
                          o.st == UpdateSession(st.(script := st.script[1..]), st.script[0].response).st
    ensures o.st.sid == st.sid && o.st.active == st.active && o.st.file == st.file && o.st.writes == st.writes
    ensures st.active == Xml ==> o.st.upgrade == st.upgrade
    ensures Wellformed(st) ==> Wellformed(o.st)
  {
    assert env.baseUrl + "" == env.baseUrl;
    var get := Send(env, st, "GET", "", Raw(""));
    match get.res
    case Halt(c) => Out(get.st, get.log, Halt(c))
    case Ok(rsp) =>
      var u := UpdateSession(get.st, rsp);
      Out(u.st, get.log, u.res)
  }

  /**
    The login page POST (cbn.go:149-152): sent with `Header` pointing at
    `upgradeInsecureHeaders`, which is switched back to `xmlHeaders` before
    the response is applied. Yields the response itself.
   */
  function LoginPage(env: Env, st: State): (o: Out<Response>)
    ensures |o.log| <= 1 && (o.res.Ok? ==> |o.log| == 1)
    ensures o.log != [] ==> o.log[0] == Expected("POST", env.baseUrl + LoginPagePath,
                                                  WireHeader(Agent(st.upgrade, env.baseUrl, env.userAgent)), Raw(""))
    ensures o.res.Ok? ==> st.script != [] && st.script[0].Delivered? && o.res.value == st.script[0].response
    ensures o.res.Ok? ==> o.st == UpdateSession(st.(active := Xml, script := st.script[1..]), o.res.value).st
    ensures o.res.Ok? ==> o.st.active == Xml
    ensures o.st.upgrade == st.upgrade
    ensures o.st.sid == st.sid && o.st.file == st.file && o.st.writes == st.writes
    ensures Wellformed(st) && o.res.Ok? ==> Wellformed(o.st)
  {
    var page := Send(env, st.(active := UpgradeInsecure), "POST", LoginPagePath, Raw(""));
    match page.res
    case Halt(c) => Out(page.st, page.log, Halt(c))
    case Ok(rsp) =>
      var u := UpdateSession(page.st.(active := Xml), rsp);
      Out(u.st, page.log, if u.res.Halt? then Halt(u.res.cause) else Ok(rsp))
  }

  /**
    Steps 1-4 of NewSID (cbn.go:141-155): the initial token, getter 24, the
    login page and getter 3. Yields the login page response.
   */
  function Setup(env: Env, st: State): (o: Out<Response>)
    ensures |o.log| <= 4 && (o.res.Ok? ==> |o.log| == 4)
    ensures o.st.sid == st.sid && o.st.file == st.file && o.st.writes == st.writes
    ensures Wellformed(st) && o.res.Ok? ==> Wellformed(o.st)
  {
    var t := Refresh(env, st);
    if t.res.Halt? then Out(t.st, t.log, Halt(t.res.cause)) else
    var setup1 := XmlGetter(env, t.st, "24", []);
    var log1 := t.log + setup1.log;
    if setup1.res.Halt? then Out(setup1.st, log1, Halt(setup1.res.cause)) else
    var page := LoginPage(env, setup1.st);
    var log2 := log1 + page.log;
    if page.res.Halt? then Out(page.st, log2, Halt(page.res.cause)) else
    var setup3 := XmlGetter(env, page.st, "3", []);
    Out(setup3.st, log2 + setup3.log, if setup3.res.Halt? then Halt(setup3.res.cause) else page.res)
  }

  /**
    `strings.Split(strings.Split(s, ";")[1], "=")[1]` (cbn.go:172);
    `None` where an index is out of range and the program panics.
   */
  function ParseSid(s: string): (r: Option<string>)
    ensures r.Some? ==> '=' !in r.value
  {
    var parts := Split(s, ';');
    if |parts| < 2 then None
    else
      var fields := Split(parts[1], '=');
      if |fields| < 2 then None else Some(fields[1])
  }

  /** Writing the session id file: logged; the file holds the id unless the write fails. */
  function WriteSid(env: Env, st: State, sid: string): (r: State)
    ensures r.writes == st.writes + [sid]
    ensures r.file == if env.writeFails then st.file else Present(sid)
    ensures r == st.(writes := r.writes, file := r.file)
  {
    st.(writes := st.writes + [sid], file := if env.writeFails then st.file else Present(sid))
  }

  /**
    The session id file is written at most once, with the SID the call
    ends with, only when a file is configured and the call succeeds.
   */
  predicate PersistsAtMostSid(env: Env, st: State, o: Out<Status>)
  {
    || o.st.writes == st.writes
    || (o.st.writes == st.writes + [o.st.sid] && env.sidFile != "" && o.res == Ok(Authenticated))
  }

  /**
    Steps 6-8 of NewSID (cbn.go:166-183): the check of the login reply
    `body`, the SID taken out of it, the login page response `page`
    applied again, and the SID persisted. Issues no request.
   */
  function CompleteLogin(env: Env, st: State, page: Response, body: string): (o: Out<Status>)
    ensures o.log == [] && o.st.active == st.active
    ensures st.active == Xml ==> o.st.upgrade == st.upgrade
    ensures Wellformed(st) ==> Wellformed(o.st)
    ensures o.res.Ok? && o.res.value.Failed? ==> o.st == st
    ensures PersistsAtMostSid(env, st, o)
  {
    if !Contains(body, "successful") then Out(st, [], Ok(Failed(LoginFailed(body))))
    else
      match ParseSid(body)
      case None => Out(st, [], Halt(SidIndexOutOfRange))
      case Some(sid) =>
        var u := UpdateSession(st.(sid := sid), page);
        if u.res.Halt? then Out(u.st, [], Halt(u.res.cause))
        else if env.sidFile == "" then Out(u.st, [], Ok(Authenticated))
        else Out(WriteSid(env, u.st, sid), [], Ok(Authenticated))
  }

  /**
    Steps 5-8 of NewSID (cbn.go:160-183): the login setter, then
    CompleteLogin on its reply. The only request is the setter's.
   */
  function Login(env: Env, st: State, page: Response): (o: Out<Status>)
    ensures |o.log| <= 1 && (o.res.Ok? ==> |o.log| == 1)
    ensures o.log != [] ==> o.log[0] == Invocation(env, st, SetterPath, FLogin, [Credentials(env)])
    ensures Wellformed(st) && o.res.Ok? ==> Wellformed(o.st)
    ensures PersistsAtMostSid(env, st, o)
  {
    var login := XmlSetter(env, st, FLogin, [Credentials(env)]);
    match login.res
    case Halt(c) => Out(login.st, login.log, Halt(c))
    case Ok(body) =>
      var c := CompleteLogin(env, login.st, page, body);
      Out(c.st, login.log, c.res)
  }

  /** NewSID (cbn.go:135-184): at most the five requests of the handshake. */
  function NewSID(env: Env, st: State): (o: Out<Status>)
    ensures |o.log| <= 5
    ensures Wellformed(st) && o.res.Ok? ==> Wellformed(o.st)
    ensures PersistsAtMostSid(env, st, o)
  {
    if env.username == "" || env.password == "" then Out(st, [], Ok(Failed(MissingCredentials)))
    else
      var s := Setup(env, st);
      match s.res
      case Halt(c) => Out(s.st, s.log, Halt(c))
      case Ok(page) =>
        var l := Login(env, s.st, page);
        Out(l.st, s.log + l.log, l.res)
  }

  // ---------------------------------------------------------------------
  // Resuming a stored session
  // ---------------------------------------------------------------------

  /** `os.IsNotExist(os.Stat(name))`: an empty name names no file. */
  function StatNotExist(name: string, file: FileState): (r: bool)
    ensures r <==> name == "" || !(file.Present? || file.Unreadable?)
  {
    name == "" || file.Missing?
  }

  /**
    `ioutil.ReadFile(name)`: `None` is a read error. A file that does not
    exist cannot be read; one that exists fails exactly when unreadable.
   */
  function ReadSid(name: string, file: FileState): (r: Option<string>)
    ensures StatNotExist(name, file) ==> r.None?
    ensures !StatNotExist(name, file) ==> (r.None? <==> file.Unreadable?)
    ensures r.Some? ==> file == Present(r.value)
  {
    if name == "" then None
    else match file
      case Present(data) => Some(data)
      case _ => None
  }

  /** AuthenticateWithSID (cbn.go:117-132). */
  function AuthenticateWithSID(env: Env, st: State): (o: Out<Status>)
    ensures |o.log| <= 5
    ensures Wellformed(st) && o.res.Ok? ==> Wellformed(o.st)
    ensures PersistsAtMostSid(env, st, o)
  {
    match ReadSid(env.sidFile, st.file)
    case None => Out(st, [], Ok(Failed(SidFileUnreadable)))
    case Some(stored) =>
      if |stored| <= ShortSid then NewSID(env, st)
      else
        var t := Refresh(env, SetHeader(st.(sid := stored), "Cookie", ["SID=" + stored]));
        Out(t.st, t.log, if t.res.Halt? then Halt(t.res.cause) else Ok(Authenticated))
  }

  /**
    Authenticate (cbn.go:107-114): at most five requests; `Header` is back
    on `xmlHeaders` whenever the program goes on; the session id file is
    written at most once, with the SID the agent ends with.
   */
  function Authenticate(env: Env, st: State): (o: Out<Status>)
    ensures |o.log| <= 5
    ensures Wellformed(st) && o.res.Ok? ==> Wellformed(o.st)
    ensures PersistsAtMostSid(env, st, o)
  {
    if env.sidFile == "" || StatNotExist(env.sidFile, st.file) then NewSID(env, st)
    else AuthenticateWithSID(env, st)
  }
}

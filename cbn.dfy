/**
  cbn.go as the program runs it: a `CBNAgent` object whose methods update
  its `Token`, `SID` and `Header` step by step, talk to the device and read
  and write the session id file. Each method of `CBNAgent` except `Do` is proved to
  have exactly the effect of the Session function it stands for: the one
  of the same name, `Send` for `Exchange`; `PostValues` computes `Params`.
  `Do` and the `SidStore` methods stand for the HTTP client and the file
  system, which have no Session counterpart beyond `Next`, `StatNotExist`,
  `ReadSid` and `WriteSid`.
 */
module Cbn {
  import opened Wrappers
  import opened Text
  import opened Wire
  import opened Session

  /** The file named by `UserConfig.SIDFile`, with the writes made to it. */
  class SidStore {
    const name: string
    const writeFails: bool
    var file: FileState
    var writes: seq<string>

    constructor (name: string, file: FileState, writeFails: bool)
      ensures this.name == name && this.file == file && this.writeFails == writeFails
      ensures writes == []
    {
      this.name := name;
      this.file := file;
      this.writeFails := writeFails;
      writes := [];
    }

    /** `os.IsNotExist` of `os.Stat(name)`. */
    method Stat() returns (notExist: bool)
      ensures notExist == StatNotExist(name, file)
    {
      notExist := StatNotExist(name, file);
    }

    /** `ioutil.ReadFile(name)`; `None` is the error. */
    method ReadFile() returns (data: Option<string>)
      ensures data == ReadSid(name, file)
      ensures data.Some? <==> name != "" && file.Present?
      ensures data.Some? ==> file == Present(data.value)
    {
      data := ReadSid(name, file);
    }

    /** `ioutil.WriteFile(name, data, 0600)`; `ok` is false on an error. */
    method WriteFile(data: string) returns (ok: bool)
      modifies this
      ensures ok == !writeFails
      ensures writes == old(writes) + [data]
      ensures file == if writeFails then old(file) else Present(data)
    {
      writes := writes + [data];
      ok := !writeFails;
      if ok {
        file := Present(data);
      }
    }
  }

  /**
    The parameters postFunction sends (cbn.go:188-196): `token` and `fun`,
    then every entry of `opt[0]` copied over them, in map iteration order.
   */
  method PostValues(token: string, fn: string, opt: seq<Values>) returns (values: Values)
    ensures values == Params(token, fn, opt)
  {
    values := map["token" := [token], "fun" := [fn]];
    if |opt| == 1 {
      var extra := opt[0];
      var todo := extra.Keys;
      ghost var done: set<string> := {};
      ParamsSoFarNone(token, fn, extra);
      while todo != {}
        invariant done <= extra.Keys && todo == extra.Keys - done
        invariant values == ParamsSoFar(token, fn, extra, done)
        decreases |todo|
      {
        var k :| k in todo;
        ParamsSoFarStep(token, fn, extra, done, k);
        values := values[k := extra[k]];
        todo := todo - {k};
        done := done + {k};
      }
      ParamsSoFarAll(token, fn, extra, done);
    }
  }

  /**
    CBNAgent (cbn.go:51-57) with its embedded Agent. The package-level maps
    `xmlHeaders` and `upgradeInsecureHeaders` are the fields of the same
    names, and `header` says which of them `Agent.Header` points at, so a
    write through `Header` lands in that map.
   */
  class CBNAgent {
    const username: string
    const password: string
    const baseUrl: string
    const userAgent: string
    const urlParses: string -> bool
    const device: Device
    const user: SidStore
    var token: string
    var sid: string
    var xmlHeaders: Values
    var upgradeInsecureHeaders: Values
    var header: HeaderSet

    /** What stays fixed for this agent. */
    ghost function Config(): Env
    {
      Env(username, password, user.name, baseUrl, userAgent, urlParses, user.writeFails)
    }

    /** The state the Session functions describe. */
    ghost function St(): State
      reads this, device, user
    {
      State(token, sid, xmlHeaders, upgradeInsecureHeaders, header, device.script, user.file, user.writes)
    }

    /** The embedded Agent as NewRequest reads it. */
    function AgentOf(): (a: Agent)
      reads this
      ensures a == Session.AgentOf(Config(), St())
    {
      Agent(if header == Xml then xmlHeaders else upgradeInsecureHeaders, baseUrl, userAgent)
    }

    /**
      NewCBNAgent (cbn.go:59-75): no token or SID, `Header` is `xmlHeaders`,
      and the user config is the one given when exactly one is given,
      otherwise the default one.
     */
    constructor (url: string, username: string, password: string, urlParses: string -> bool,
                 device: Device, users: seq<SidStore>, defaultUser: SidStore)
      requires defaultUser.name == DefaultSidFile
      ensures this.device == device && this.user == (if |users| == 1 then users[0] else defaultUser)
      ensures Config() == Env(username, password, user.name, url, FirefoxUserAgent, urlParses, user.writeFails)
      ensures St() == Initial(device.script, user.file).(writes := user.writes)
      ensures Wellformed(St())
    {
      this.username := username;
      this.password := password;
      baseUrl := url;
      userAgent := FirefoxUserAgent;
      this.urlParses := urlParses;
      this.device := device;
      user := if |users| == 1 then users[0] else defaultUser;
      token := "";
      sid := "";
      xmlHeaders := XmlHeaders;
      upgradeInsecureHeaders := UpgradeInsecureHeaders;
      header := Xml;
    }

    /** `cbn.Header[key] = val`. */
    method SetHeader(key: string, val: seq<string>)
      modifies this
      ensures St() == Session.SetHeader(old(St()), key, val)
    {
      if header == Xml {
        xmlHeaders := xmlHeaders[key := val];
      } else {
        upgradeInsecureHeaders := upgradeInsecureHeaders[key := val];
      }
    }

    /** updateCookies (cbn.go:77-83). */
    method UpdateCookies()
      modifies this
      ensures St() == Session.UpdateCookies(old(St()))
    {
      var cookies := ["sessionToken=" + token];
      if sid != "" {
        cookies := cookies + ["SID=" + sid];
      }
      assert cookies == CookieValues(token, sid);
      SetHeader("Cookie", cookies);
    }

    /** updateSession (cbn.go:86-104). */
    method UpdateSession(rsp: Response) returns (res: Res<string>)
      modifies this
      ensures Out(St(), [], res) == Session.UpdateSession(old(St()), rsp)
    {
      var body := rsp.body;
      if |rsp.cookies| == 0 {
        return Ok(body);
      }
      var c := rsp.cookies[0];
      if c.name != "sessionToken" {
        return Halt(NoSessionToken);
      }
      token := c.value;
      UpdateCookies();
      return Ok(body);
    }

    /**
      Agent.Do (agent.go:46-52) applied to what NewRequest returned: `None`
      means construction already ended the program.
     */
    method Do(req: Option<Request>) returns (res: Res<Response>)
      modifies device
      ensures req.None? ==> res == Halt(RequestInvalid) && unchanged(device)
      ensures req.Some? ==>
        && device.sent == old(device.sent) + [req.value]
        && device.script == Next(old(device.script)).1
        && res == (if Next(old(device.script)).0.Delivered?
                   then Ok(Next(old(device.script)).0.response) else Halt(TransportFailed))
    {
      if req.None? {
        return Halt(RequestInvalid);
      }
      var reply := device.Do(req.value);
      if reply.TransportFailure? {
        return Halt(TransportFailed);
      }
      return Ok(reply.response);
    }

    /** `cbn.Agent.Do(cbn.NewRequest(verb, path, body))`. */
    method Exchange(verb: string, path: string, body: string) returns (res: Res<Response>)
      modifies device
      ensures var o := Session.Send(Config(), old(St()), verb, path, Raw(body));
        St() == o.st && res == o.res && Extends(old(device.sent), device.sent, o.log)
    {
      var req := NewRequest(AgentOf(), urlParses, verb, path, body);
      res := Do(req);
    }

    /** postFunction (cbn.go:187-199). */
    method PostFunction(fn: string, uri: string, opt: seq<Values>) returns (res: Res<string>)
      modifies this, device
      ensures var o := Session.PostFunction(Config(), old(St()), fn, uri, opt);
        St() == o.st && res == o.res && Extends(old(device.sent), device.sent, o.log)
    {
      var values := PostValues(token, fn, opt);
      res := Post(uri, values);
    }

    /** `cbn.updateSession(cbn.Agent.Do(cbn.NewRequestV("POST", uri, values)))`. */
    method Post(uri: string, values: Values) returns (res: Res<string>)
      requires values.Keys != {}
      modifies this, device
      ensures var o := Session.Post(Config(), old(St()), uri, values);
        St() == o.st && res == o.res && Extends(old(device.sent), device.sent, o.log)
    {
      var req, order := NewRequestV(AgentOf(), urlParses, "POST", uri, values);
      var sent := Do(req);
      if sent.Halt? {
        return Halt(sent.cause);
      }
      res := UpdateSession(sent.value);
    }

    /** xmlGetter (cbn.go:203-205). */
    method XmlGetter(fn: string, opt: seq<Values>) returns (res: Res<string>)
      modifies this, device
      ensures var o := Session.XmlGetter(Config(), old(St()), fn, opt);
        St() == o.st && res == o.res && Extends(old(device.sent), device.sent, o.log)
    {
      res := PostFunction(fn, GetterPath, opt);
    }

    /** xmlSetter (cbn.go:200-202). */
    method XmlSetter(fn: string, opt: seq<Values>) returns (res: Res<string>)
      modifies this, device
      ensures var o := Session.XmlSetter(Config(), old(St()), fn, opt);
        St() == o.st && res == o.res && Extends(old(device.sent), device.sent, o.log)
    {
      res := PostFunction(fn, SetterPath, opt);
    }

    /** `cbn.updateSession(cbn.Agent.Do(cbn.NewRequest("GET", "", "")))`. */
    method Refresh() returns (res: Res<string>)
      modifies this, device
      ensures var o := Session.Refresh(Config(), old(St()));
        St() == o.st && res == o.res && Extends(old(device.sent), device.sent, o.log)
    {
      var get := Exchange("GET", "", "");
      if get.Halt? {
        return Halt(get.cause);
      }
      res := UpdateSession(get.value);
    }

    /** The login page POST under `upgradeInsecureHeaders` (cbn.go:149-152). */
    method LoginPage() returns (res: Res<Response>)
      modifies this, device
      ensures var o := Session.LoginPage(Config(), old(St()));
        St() == o.st && res == o.res && Extends(old(device.sent), device.sent, o.log)
    {
      header := UpgradeInsecure;
      var page := Exchange("POST", LoginPagePath, "");
      if page.Halt? {
        return Halt(page.cause);
      }
      header := Xml;
      var u := UpdateSession(page.value);
      if u.Halt? {
        return Halt(u.cause);
      }
      res := page;
    }

    /** Steps 1-4 of NewSID (cbn.go:141-155); yields the login page response. */
    method Setup() returns (res: Res<Response>)
      modifies this, device
      ensures var o := Session.Setup(Config(), old(St()));
        St() == o.st && res == o.res && Extends(old(device.sent), device.sent, o.log)
    {
      ghost var env := Config();
      ghost var log0 := device.sent;

      // the initial session token
      ghost var t0 := Session.Refresh(env, St());
      var t := Refresh();
      if t.Halt? {
        return Halt(t.cause);
      }
      ghost var log1 := device.sent;

      // setup (1/3)
      ghost var setup10 := Session.XmlGetter(env, St(), "24", []);
      var setup1 := XmlGetter("24", []);
      ExtendsTrans(log0, log1, device.sent, t0.log, setup10.log);
      if setup1.Halt? {
        return Halt(setup1.cause);
      }
      ghost var log2 := device.sent;

      // setup (2/3)
      ghost var page0 := Session.LoginPage(env, St());
      var page := LoginPage();
      ExtendsTrans(log0, log2, device.sent, t0.log + setup10.log, page0.log);
      if page.Halt? {
        return Halt(page.cause);
      }
      ghost var log3 := device.sent;

      // setup (3/3)
      ghost var setup30 := Session.XmlGetter(env, St(), "3", []);
      var setup3 := XmlGetter("3", []);
      ExtendsTrans(log0, log3, device.sent, t0.log + setup10.log + page0.log, setup30.log);
      if setup3.Halt? {
        return Halt(setup3.cause);
      }
      res := page;
    }

    /** Steps 5-8 of NewSID (cbn.go:160-183); `page` is the login page response. */
    method Login(page: Response) returns (res: Res<Status>)
      modifies this, device, user
      ensures var o := Session.Login(Config(), old(St()), page);
        St() == o.st && res == o.res && Extends(old(device.sent), device.sent, o.log)
    {
      var creds := map["Username" := [username], "Password" := [password]];
      var data := XmlSetter(FLogin, [creds]);
      if data.Halt? {
        return Halt(data.cause);
      }
      res := CompleteLogin(page, data.value);
    }

    /** Steps 6-8 of NewSID (cbn.go:166-183); `s` is the login reply. */
    method CompleteLogin(page: Response, s: string) returns (res: Res<Status>)
      modifies this, user
      ensures var o := Session.CompleteLogin(Config(), old(St()), page, s);
        St() == o.st && res == o.res
    {
      if !Contains(s, "successful") {
        return Ok(Failed(LoginFailed(s)));
      }
      var parsed := ParseSid(s);
      if parsed.None? {
        return Halt(SidIndexOutOfRange);
      }
      sid := parsed.value;
      var u := UpdateSession(page);
      if u.Halt? {
        return Halt(u.cause);
      }
      if user.name != "" {
        var saved := user.WriteFile(sid);
      }
      return Ok(Authenticated);
    }

    /** NewSID (cbn.go:135-184). */
    method NewSID() returns (res: Res<Status>)
      modifies this, device, user
      ensures var o := Session.NewSID(Config(), old(St()));
        St() == o.st && res == o.res && Extends(old(device.sent), device.sent, o.log)
    {
      if username == "" || password == "" {
        ExtendsNone(device.sent);
        return Ok(Failed(MissingCredentials));
      }
      ghost var log0 := device.sent;
      ghost var s0 := Session.Setup(Config(), St());
      var page := Setup();
      if page.Halt? {
        return Halt(page.cause);
      }
      ghost var log1 := device.sent;
      ghost var l0 := Session.Login(Config(), St(), page.value);
      res := Login(page.value);
      ExtendsTrans(log0, log1, device.sent, s0.log, l0.log);
    }

    /** AuthenticateWithSID (cbn.go:117-132). */
    method AuthenticateWithSID() returns (res: Res<Status>)
      modifies this, device, user
      ensures var o := Session.AuthenticateWithSID(Config(), old(St()));
        St() == o.st && res == o.res && Extends(old(device.sent), device.sent, o.log)
    {
      var data := user.ReadFile();
      if data.None? {
        ExtendsNone(device.sent);
        return Ok(Failed(SidFileUnreadable));
      }
      var stored := data.value;
      if |stored| <= ShortSid {
        res := NewSID();
        return;
      }
      sid := stored;
      SetHeader("Cookie", ["SID=" + sid]);
      var t := Refresh();
      if t.Halt? {
        return Halt(t.cause);
      }
      return Ok(Authenticated);
    }

    /** Authenticate (cbn.go:107-114). */
    method Authenticate() returns (res: Res<Status>)
      modifies this, device, user
      ensures var o := Session.Authenticate(Config(), old(St()));
        St() == o.st && res == o.res && Extends(old(device.sent), device.sent, o.log)
    {
      var notExist := user.Stat();
      if user.name == "" || notExist {
        res := NewSID();
      } else {
        res := AuthenticateWithSID();
      }
    }
  }
}

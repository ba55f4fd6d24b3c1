/**
  Four end-to-end runs of Authenticate against a scripted device: a fresh
  login that succeeds, one the device rejects, the resume of a stored
  session id, and a stored id too short to be used.
 */
module Scenarios {
  import opened Wrappers
  import opened Text
  import opened Wire
  import opened Session
  import opened Properties

  const Base := "http://192.168.0.1"

  /** alice/secret, the default session id file, every URL valid, writes succeed. */
  function Alice(): Env
  {
    Env("alice", "secret", DefaultSidFile, Base, FirefoxUserAgent, (u: string) => true, false)
  }

  function Reply(cookies: seq<Cookie>, body: string): Reply
  {
    Delivered(Response(cookies, body))
  }

  /**
    The device's replies to the five requests of a fresh login: token `t1`
    on the first GET, `t2` on the login page, `last` from the login setter.
   */
  function FreshScript(t1: string, t2: string, last: string): seq<Reply>
  {
    [Reply([Cookie("sessionToken", t1)], ""),
     Reply([], ""),
     Reply([Cookie("sessionToken", t2)], ""),
     Reply([], ""),
     Reply([], last)]
  }

  /** Steps 1-4 against that script: the token is `t2` afterwards, from the login page reply. */
  lemma FreshSetup(file: FileState, t1: string, t2: string, last: string)
    ensures var s := Setup(Alice(), Initial(FreshScript(t1, t2, last), file));
      && s.res == Ok(Response([Cookie("sessionToken", t2)], ""))
      && s.st.token == t2 && s.st.sid == ""
      && s.st.script == [Reply([], last)]
      && s.st.file == file && s.st.writes == []
      && |s.log| == 4
  {
    var env := Alice();
    var script := FreshScript(t1, t2, last);
    var st := Initial(script, file);
    var t := Refresh(env, st);
    assert t.st.token == t1 && t.st.script == script[1..];
    var setup1 := XmlGetter(env, t.st, "24", []);
    assert setup1.st.token == t1 && setup1.st.script == script[2..];
    var page := LoginPage(env, setup1.st);
    assert page.st.token == t2 && page.st.script == script[3..];
    SetupStages(env, st);
  }

  /**
    A fresh login against that script: `Authenticate` is `NewSID` (no
    session id file yet, or one too short), so the setup of steps 1-4 runs
    and then the login of steps 5-8 on the login page's response.
   */
  lemma FreshLogin(file: FileState, t1: string, t2: string, last: string)
    requires file.Missing? || (file.Present? && |file.data| <= ShortSid)
    ensures var st := Initial(FreshScript(t1, t2, last), file);
      var page := Response([Cookie("sessionToken", t2)], "");
      var s := Setup(Alice(), st);
      var l := Login(Alice(), s.st, page);
      && s.res == Ok(page)
      && Authenticate(Alice(), st) == Out(l.st, s.log + l.log, l.res)
  {
    var env := Alice();
    var st := Initial(FreshScript(t1, t2, last), file);
    var page := Response([Cookie("sessionToken", t2)], "");
    FreshSetup(file, t1, t2, last);
    AuthenticateRoutes(env, st);
    var s := Setup(env, st);
    var l := Login(env, s.st, page);
    assert NewSID(env, st) == Out(l.st, s.log + l.log, l.res);
  }

  /** The login setter of step 5 sends one request and receives `last`, with no cookie. */
  lemma FreshSetter(file: FileState, t1: string, t2: string, last: string)
    ensures var s := Setup(Alice(), Initial(FreshScript(t1, t2, last), file));
      var login := XmlSetter(Alice(), s.st, FLogin, [Credentials(Alice())]);
      && login == Out(s.st.(script := []), login.log, Ok(last))
      && |login.log| == 1
  {
    var env := Alice();
    FreshSetup(file, t1, t2, last);
    var s := Setup(env, Initial(FreshScript(t1, t2, last), file));
  }

  /** A fresh login the device accepts: the login succeeds, the SID is `v` and it is persisted. */
  lemma FreshLoginSucceeds(t1: string, t2: string, v: string)
    requires ';' !in v && '=' !in v
    ensures var o := Authenticate(Alice(), Initial(FreshScript(t1, t2, "successful;SID=" + v), Missing));
      && o.res == Ok(Authenticated)
      && o.st.sid == v
      && o.st.token == t2
      && o.st.writes == [v]
      && o.st.file == Present(v)
      && |o.log| == 5
  {
    var st := Initial(FreshScript(t1, t2, "successful;SID=" + v), Missing);
    var page := Response([Cookie("sessionToken", t2)], "");
    FreshLogin(Missing, t1, t2, "successful;SID=" + v);
    FreshSetter(Missing, t1, t2, "successful;SID=" + v);
    var s := Setup(Alice(), st);
    LoginAccepted(Alice(), s.st.(script := []), page, v);
  }

  /** A fresh login the device rejects: the login is rejected with the device's text, nothing is persisted. */
  lemma FreshLoginRejected(t1: string, t2: string, body: string)
    requires !Contains(body, "successful")
    ensures var o := Authenticate(Alice(), Initial(FreshScript(t1, t2, body), Missing));
      && o.res == Ok(Failed(LoginFailed(body)))
      && o.st.sid == ""
      && o.st.writes == []
      && o.st.file == Missing
      && |o.log| == 5
  {
    var st := Initial(FreshScript(t1, t2, body), Missing);
    var page := Response([Cookie("sessionToken", t2)], "");
    FreshLogin(Missing, t1, t2, body);
    FreshSetter(Missing, t1, t2, body);
    var s := Setup(Alice(), st);
    LoginRejected(Alice(), s.st.(script := []), page, body);
  }

  /** The rejection text of the example has no `u`, so it cannot contain "successful". */
  lemma RejectionText()
    ensures !Contains("already logged in elsewhere", "successful")
  {
    ContainsNeedsChar("already logged in elsewhere", "successful", 'u');
  }

  /** Resume of a valid stored id: it is resumed with one GET carrying `SID=<id>` and nothing else. */
  lemma ResumeValidSid(d: string, t: string)
    requires |d| > ShortSid
    ensures var o := Authenticate(Alice(), Initial([Reply([Cookie("sessionToken", t)], "")], Present(d)));
      && o.res == Ok(Authenticated)
      && o.st.sid == d
      && o.st.token == t
      && |o.log| == 1
      && o.log[0].verb == "GET" && o.log[0].url == Base
      && o.log[0].header["Cookie"] == "SID=" + d
      && o.st.writes == []
  {
    var st := Initial([Reply([Cookie("sessionToken", t)], "")], Present(d));
    ResumeStoredSid(Alice(), st, d);
  }

  /** A stored id too short to use: `xy` is ignored and the accepted fresh login runs instead. */
  lemma ResumeCorruptSid(t1: string, t2: string, v: string)
    requires ';' !in v && '=' !in v
    ensures var o := Authenticate(Alice(), Initial(FreshScript(t1, t2, "successful;SID=" + v), Present("xy")));
      && o.res == Ok(Authenticated)
      && o.st.sid == v
      && o.st.writes == [v]
      && o.st.file == Present(v)
      && |o.log| == 5
  {
    var st := Initial(FreshScript(t1, t2, "successful;SID=" + v), Present("xy"));
    var page := Response([Cookie("sessionToken", t2)], "");
    FreshLogin(Present("xy"), t1, t2, "successful;SID=" + v);
    FreshSetter(Present("xy"), t1, t2, "successful;SID=" + v);
    var s := Setup(Alice(), st);
    LoginAccepted(Alice(), s.st.(script := []), page, v);
  }
}

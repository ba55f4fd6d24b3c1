/**
  The request layer of agent.go: the device's own body encoding
  (`EncodeVals`), request construction from an `Agent` (`NewRequest`,
  `NewRequestV`) and the exchange with the device (`Agent.Do`), where the
  device is a script of replies and the requests it receives are logged.
 */
module Wire {
  import opened Wrappers
  import opened Text

  /** url.Values: each key maps to a list of values. */
  type Values = map<string, seq<string>>

  // ---------------------------------------------------------------------
  // Body encoding
  // ---------------------------------------------------------------------

  /** The segment one key contributes: `k=v1,v2,...`. */
  function Segment(k: string, vals: Values): string
    requires k in vals
  {
    k + "=" + Join(vals[k], ",")
  }

  /** The segments of the keys, in the given order. */
  function Segments(order: seq<string>, vals: Values): (r: seq<string>)
    requires forall k :: k in order ==> k in vals
    ensures |r| == |order|
    ensures forall i :: 0 <= i < |order| ==> r[i] == Segment(order[i], vals)
  {
    seq(|order|, i requires 0 <= i < |order| => Segment(order[i], vals))
  }

  /**
    The body `EncodeVals` produces when it visits the keys in `order`:
    one segment per key, separated by `&`, with nothing after the last.
   */
  function Encoding(order: seq<string>, vals: Values): string
    requires forall k :: k in order ==> k in vals
  {
    Join(Segments(order, vals), "&")
  }

  /** `order` lists every key of `vals` exactly once: one possible iteration order. */
  ghost predicate IsKeyOrder(order: seq<string>, vals: Values)
  {
    && (forall i, j :: 0 <= i < j < |order| ==> order[i] != order[j])
    && (forall k :: k in order <==> k in vals)
  }

  /** `body` is what `EncodeVals(vals)` can return under some iteration order. */
  ghost predicate Encodes(body: string, vals: Values)
  {
    exists order :: IsKeyOrder(order, vals) && body == Encoding(order, vals)
  }

  /**
    EncodeVals (agent.go:11-18). Go visits the keys of a map in an
    unspecified order; the loop here picks each next key arbitrarily and
    reports the order it used. The source slices off the last character
    of the accumulated string, which panics on an empty map: its callers
    must pass at least one key.
   */
  method EncodeVals(vals: Values) returns (r: string, ghost order: seq<string>)
    requires vals.Keys != {}
    ensures IsKeyOrder(order, vals)
    ensures r == Encoding(order, vals)
  {
    r := "";
    order := [];
    var todo := vals.Keys;
    while todo != {}
      invariant todo <= vals.Keys
      invariant forall k :: k in order <==> k in vals && k !in todo
      invariant forall i, j :: 0 <= i < j < |order| ==> order[i] != order[j]
      invariant r == if order == [] then "" else Encoding(order, vals) + "&"
      decreases |todo|
    {
      var k :| k in todo;
      ghost var before := order;
      r := r + (k + "=" + Join(vals[k], ",") + "&");
      order := order + [k];
      todo := todo - {k};
      assert Segments(order, vals) == Segments(before, vals) + [Segment(k, vals)];
      if before == [] {
        assert r == Segment(k, vals) + "&";
      } else {
        JoinAppend(Segments(before, vals), Segment(k, vals), "&");
        assert r == (Encoding(before, vals) + "&" + Segment(k, vals)) + "&";
      }
    }
    ghost var some :| some in vals;
    assert some in order;
    r := r[..|r| - 1];
  }

  /** A list without repetitions, drawn from `s`, is no longer than `s` is large. */
  lemma {:induction false} DistinctBound(order: seq<string>, s: set<string>)
    requires forall i, j :: 0 <= i < j < |order| ==> order[i] != order[j]
    requires forall i :: 0 <= i < |order| ==> order[i] in s
    ensures |order| <= |s|
  {
    if |order| > 0 {
      forall i | 0 <= i < |order| - 1 ensures order[1..][i] in s - {order[0]} {
        assert order[1..][i] == order[i + 1];
      }
      DistinctBound(order[1..], s - {order[0]});
    }
  }

  /** Every key order of a map with one key is that key alone. */
  lemma SingleKeyOrder(order: seq<string>, k: string, vs: seq<string>)
    requires IsKeyOrder(order, map[k := vs])
    ensures order == [k]
  {
    assert k in order;
    forall i | 0 <= i < |order| ensures order[i] in {k} {
      assert order[i] in map[k := vs];
    }
    DistinctBound(order, {k});
  }

  /**
    A single key is encoded as `k=` followed by its values joined with `,`
    (agent_test.go:10 and :12), whatever the iteration order.
   */
  lemma EncodesSingleKey(body: string, k: string, vs: seq<string>)
    ensures Encodes(body, map[k := vs]) <==> body == k + "=" + Join(vs, ",")
  {
    var m := map[k := vs];
    assert IsKeyOrder([k], m);
    assert Encoding([k], m) == k + "=" + Join(vs, ",");
    if Encodes(body, m) {
      var order :| IsKeyOrder(order, m) && body == Encoding(order, m);
      SingleKeyOrder(order, k, vs);
    }
  }

  /** The two cases of agent_test.go that the test checks. */
  lemma EncodeValsTestCases(body: string)
    ensures Encodes(body, map["a" := ["b"]]) <==> body == "a=b"
    ensures Encodes(body, map["a" := ["b", "c"]]) <==> body == "a=b,c"
  {
    EncodesSingleKey(body, "a", ["b"]);
    EncodesSingleKey(body, "a", ["b", "c"]);
    assert Join(["b", "c"], ",") == "b,c" by {
      assert ["b", "c"][1..] == ["c"];
    }
  }

  /**
    The case agent_test.go:11 leaves commented out: with two keys both
    orders are possible bodies, so the encoding is not a function of the map.
   */
  lemma EncodingDependsOnOrder()
    ensures Encodes("a=b&c=d", map["a" := ["b"], "c" := ["d"]])
    ensures Encodes("c=d&a=b", map["a" := ["b"], "c" := ["d"]])
  {
    var m := map["a" := ["b"], "c" := ["d"]];
    assert IsKeyOrder(["a", "c"], m);
    assert IsKeyOrder(["c", "a"], m);
    assert Segment("a", m) == "a=b" && Segment("c", m) == "c=d";
    assert Segments(["a", "c"], m) == ["a=b", "c=d"];
    assert Segments(["c", "a"], m) == ["c=d", "a=b"];
    assert ["a=b", "c=d"][1..] == ["c=d"];
    assert ["c=d", "a=b"][1..] == ["a=b"];
  }

  /**
    The body splits on `&` back into one segment per key, in iteration
    order, provided no key and no value contains `&`: the separators are
    exactly the ones between segments, with none leading or trailing.
   */
  lemma EncodingSegments(order: seq<string>, vals: Values)
    requires IsKeyOrder(order, vals) && vals.Keys != {}
    requires forall k :: k in vals ==> '&' !in k
    requires forall k, i :: k in vals && 0 <= i < |vals[k]| ==> '&' !in vals[k][i]
    ensures Split(Encoding(order, vals), '&') == Segments(order, vals)
  {
    var some :| some in vals;
    assert some in order;
    forall i | 0 <= i < |order| ensures '&' !in Segments(order, vals)[i] {
      var k := order[i];
      assert k in vals;
      JoinFree(vals[k], ",", '&');
    }
    SplitJoin(Segments(order, vals), '&');
  }

  /** Joining character-free parts with a character-free separator stays free of it. */
  lemma {:induction false} JoinFree(parts: seq<string>, sep: string, x: char)
    requires x !in sep
    requires forall i :: 0 <= i < |parts| ==> x !in parts[i]
    ensures x !in Join(parts, sep)
  {
    if |parts| > 1 {
      JoinFree(parts[1..], sep, x);
    }
  }

  // ---------------------------------------------------------------------
  // Requests
  // ---------------------------------------------------------------------

  /** The fields of agent.go's `Agent` that request construction reads. */
  datatype Agent = Agent(header: Values, baseUrl: string, userAgent: string)

  /** An http.Request as far as the device sees it. */
  datatype Request = Request(verb: string, url: string, header: map<string, string>, body: string)

  /**
    The headers `NewRequest` puts on a request: `User-Agent`, then every
    key of the active header map with its values joined by `;` (a key of
    the map overrides `User-Agent`, since it is set later).
   */
  function WireHeader(a: Agent): map<string, string>
  {
    map["User-Agent" := a.userAgent] + map k | k in a.header :: Join(a.header[k], ";")
  }

  /** What each header of a request built from `a` carries. */
  lemma WireHeaderEntries(a: Agent)
    ensures WireHeader(a).Keys == a.header.Keys + {"User-Agent"}
    ensures forall k :: k in a.header ==> WireHeader(a)[k] == Join(a.header[k], ";")
    ensures "User-Agent" !in a.header ==> WireHeader(a)["User-Agent"] == a.userAgent
  {
  }

  /**
    Agent.NewRequest (agent.go:33-43). `http.NewRequest` fails, and the
    program exits, when `BaseUrl + url` is not a valid URL: `urlParses`
    stands for net/url's verdict and `None` for that exit.
   */
  method NewRequest(a: Agent, urlParses: string -> bool, verb: string, url: string, body: string)
    returns (r: Option<Request>)
    ensures r.None? <==> !urlParses(a.baseUrl + url)
    ensures r.Some? ==> r.value == Request(verb, a.baseUrl + url, WireHeader(a), body)
  {
    var target := a.baseUrl + url;
    if !urlParses(target) {
      return None;
    }
    var h := map["User-Agent" := a.userAgent];
    var todo := a.header.Keys;
    ghost var done: set<string> := {};
    HeaderSoFarNone(a);
    while todo != {}
      invariant done <= a.header.Keys && todo == a.header.Keys - done
      invariant h == HeaderSoFar(a, done)
      decreases |todo|
    {
      var k :| k in todo;
      HeaderSoFarStep(a, done, k);
      h := h[k := Join(a.header[k], ";")];
      todo := todo - {k};
      done := done + {k};
    }
    HeaderSoFarAll(a, done);
    r := Some(Request(verb, target, h, body));
  }

  /** The headers after the keys in `done` have been copied. */
  ghost function HeaderSoFar(a: Agent, done: set<string>): map<string, string>
    requires done <= a.header.Keys
  {
    map["User-Agent" := a.userAgent] + map k | k in done :: Join(a.header[k], ";")
  }

  lemma HeaderSoFarNone(a: Agent)
    ensures HeaderSoFar(a, {}) == map["User-Agent" := a.userAgent]
  {
  }

  lemma HeaderSoFarAll(a: Agent, done: set<string>)
    requires done <= a.header.Keys && a.header.Keys - done == {}
    ensures HeaderSoFar(a, done) == WireHeader(a)
  {
    forall k | k in a.header.Keys ensures k in done {
      assert k !in a.header.Keys - done;
    }
    assert done == a.header.Keys;
  }

  lemma HeaderSoFarStep(a: Agent, done: set<string>, k: string)
    requires done <= a.header.Keys && k in a.header
    ensures HeaderSoFar(a, done + {k}) == HeaderSoFar(a, done)[k := Join(a.header[k], ";")]
  {
  }

  /** Agent.NewRequestV (agent.go:29-31): NewRequest with the encoded values as body. */
  method NewRequestV(a: Agent, urlParses: string -> bool, verb: string, url: string, vals: Values)
    returns (r: Option<Request>, ghost order: seq<string>)
    requires vals.Keys != {}
    ensures IsKeyOrder(order, vals)
    ensures r.None? <==> !urlParses(a.baseUrl + url)
    ensures r.Some? ==> r.value == Request(verb, a.baseUrl + url, WireHeader(a), Encoding(order, vals))
  {
    var body;
    body, order := EncodeVals(vals);
    r := NewRequest(a, urlParses, verb, url, body);
  }

  /** The session cookie header as NewRequest writes it. */
  lemma CookieHeader(a: Agent, token: string, sid: string)
    requires sid != ""
    requires "Cookie" in a.header && a.header["Cookie"] == ["sessionToken=" + token, "SID=" + sid]
    ensures WireHeader(a)["Cookie"] == "sessionToken=" + token + ";SID=" + sid
  {
    assert a.header["Cookie"][1..] == ["SID=" + sid];
  }

  // ---------------------------------------------------------------------
  // The device
  // ---------------------------------------------------------------------

  datatype Cookie = Cookie(name: string, value: string)

  /** What the agent reads of a response: its cookies, in order, and its body. */
  datatype Response = Response(cookies: seq<Cookie>, body: string)

  /** The outcome of one `Client.Do`: a response, or a transport error. */
  datatype Reply = Delivered(response: Response) | TransportFailure

  /** The next reply of a script and what remains; an exhausted script fails. */
  function Next(script: seq<Reply>): (Reply, seq<Reply>)
  {
    if script == [] then (TransportFailure, []) else (script[0], script[1..])
  }

  /** The device at the other end of the HTTP client, replaying a script. */
  class Device {
    var script: seq<Reply>
    var sent: seq<Request>

    constructor (script: seq<Reply>)
      ensures this.script == script && sent == []
    {
      this.script := script;
      sent := [];
    }

    /** One request: it is logged, and the next scripted reply is consumed. */
    method Do(req: Request) returns (reply: Reply)
      modifies this
      ensures sent == old(sent) + [req]
      ensures (reply, script) == Next(old(script))
    {
      sent := sent + [req];
      if script == [] {
        reply := TransportFailure;
      } else {
        reply := script[0];
        script := script[1..];
      }
    }
  }

  // ---------------------------------------------------------------------
  // Expected requests
  // ---------------------------------------------------------------------

  /** A body as the reference model describes it: a literal string, or encoded values. */
  datatype Body = Raw(text: string) | Form(vals: Values)

  /** A request as the reference model describes it. */
  datatype Expected = Expected(verb: string, url: string, header: map<string, string>, body: Body)

  /** An actual request matches a described one (for a form body: under some key order). */
  ghost predicate Conforms(r: Request, e: Expected)
  {
    && r.verb == e.verb
    && r.url == e.url
    && r.header == e.header
    && match e.body
       case Raw(text) => r.body == text
       case Form(vals) => Encodes(r.body, vals)
  }

  /** `after` is `before` followed by requests matching `es`, one for one. */
  ghost predicate Extends(before: seq<Request>, after: seq<Request>, es: seq<Expected>)
  {
    && |after| == |before| + |es|
    && after[..|before|] == before
    && forall i :: 0 <= i < |es| ==> Conforms(after[|before| + i], es[i])
  }

  lemma ExtendsNone(log: seq<Request>)
    ensures Extends(log, log, [])
  {
  }

  lemma ExtendsTrans(a: seq<Request>, b: seq<Request>, c: seq<Request>, e1: seq<Expected>, e2: seq<Expected>)
    requires Extends(a, b, e1) && Extends(b, c, e2)
    ensures Extends(a, c, e1 + e2)
  {
    assert c[..|a|] == c[..|b|][..|a|];
    forall i | 0 <= i < |e1 + e2| ensures Conforms(c[|a| + i], (e1 + e2)[i]) {
      if i < |e1| {
        assert c[|a| + i] == c[..|b|][|a| + i];
      } else {
        assert c[|a| + i] == c[|b| + (i - |e1|)];
      }
    }
  }
}

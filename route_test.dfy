/**
 * The RouteTest record as a mutable object: Run executes it and writes the
 * captured output back onto it; Apply, called on a template, fills the
 * unset covered fields of a batch in place.
 */
module RouteTests {
  import opened Descriptors
  import opened Checks
  import opened Pipeline

  class RouteTest {
    var body: Value
    var bodyShouldHave: seq<string>
    var bodyShouldNotHave: seq<string>
    var cookies: map<string, string>
    var expectedBody: string
    var expectedCookies: Option<Shape>
    var expectedStatus: int
    var expectedM: Option<Shape>
    var getURL: Option<HookId>
    var hideResponseBody: bool
    var httpMethod: string
    var modifyParams: Option<HookId>
    var name: string
    var only: bool
    var path: string
    var preflight: Option<HookId>
    var query: Option<map<string, Value>>
    var response: map<string, Value>
    var nilResponse: bool
    var url: string

    /** The descriptor this object currently holds. */
    function Snapshot(): Descriptor
      reads this
    {
      Descriptor(body, bodyShouldHave, bodyShouldNotHave, cookies, expectedBody, expectedCookies,
                 expectedStatus, expectedM, getURL, hideResponseBody, httpMethod, modifyParams,
                 name, only, path, preflight, query, response, nilResponse, url)
    }

    constructor (d: Descriptor)
      ensures Snapshot() == d
    {
      body, bodyShouldHave, bodyShouldNotHave, cookies := d.body, d.bodyShouldHave, d.bodyShouldNotHave, d.cookies;
      expectedBody, expectedCookies, expectedStatus, expectedM := d.expectedBody, d.expectedCookies, d.expectedStatus, d.expectedM;
      getURL, hideResponseBody, httpMethod, modifyParams := d.getURL, d.hideResponseBody, d.httpMethod, d.modifyParams;
      name, only, path, preflight := d.name, d.only, d.path, d.preflight;
      query, response, nilResponse, url := d.query, d.response, d.nilResponse, d.url;
    }

    /** Takes Path, Method, ModifyParams and Query from `m`. */
    method TakeRequestFields(m: Descriptor)
      modifies this
      ensures Snapshot() == old(Snapshot()).(path := m.path, httpMethod := m.httpMethod,
                                            modifyParams := m.modifyParams, query := m.query)
    {
      path, httpMethod, modifyParams, query := m.path, m.httpMethod, m.modifyParams, m.query;
    }

    /** Takes Preflight, ExpectedStatus, ExpectedM and ExpectedCookies from `m`. */
    method TakeExpectationFields(m: Descriptor)
      modifies this
      ensures Snapshot() == old(Snapshot()).(preflight := m.preflight, expectedStatus := m.expectedStatus,
                                            expectedM := m.expectedM, expectedCookies := m.expectedCookies)
    {
      preflight, expectedStatus, expectedM, expectedCookies := m.preflight, m.expectedStatus, m.expectedM, m.expectedCookies;
    }

    /** Takes BodyShouldHave, BodyShouldNotHave and ExpectedBody from `m`. */
    method TakeBodyFields(m: Descriptor)
      modifies this
      ensures Snapshot() == old(Snapshot()).(bodyShouldHave := m.bodyShouldHave,
                                            bodyShouldNotHave := m.bodyShouldNotHave, expectedBody := m.expectedBody)
    {
      bodyShouldHave, bodyShouldNotHave, expectedBody := m.bodyShouldHave, m.bodyShouldNotHave, m.expectedBody;
    }

    /**
     * Runs this test once against the collaborators in `env`: returns the
     * first failing step, or Passed, and leaves the descriptor as `Execute`
     * says (URL resolved when it was empty, Response decoded, Cookies
     * captured once the structural body check has passed).
     */
    method Run(env: Env) returns (outcome: Outcome)
      modifies this
      ensures RunResult(outcome, Snapshot()) == Execute(old(Snapshot()), env)
    {
      ghost var d := Snapshot();
      var aborted, params := PrepareRequest(env);
      if aborted.Some? {
        return Failed(aborted.value);
      }
      // The transport error is only logged; it never ends the run by itself.
      var ex := env.dispatch(params, body, response);
      response := ex.decoded;
      outcome := Check(params, ex, env);
    }

    /**
     * The steps before dispatch: Preflight, URL resolution (storing
     * GetURL(Path) on this test when its URL is empty), parameter assembly
     * and the ModifyParams hook.  Returns the failing step, if any, and the
     * parameters to dispatch.
     */
    method PrepareRequest(env: Env) returns (aborted: Option<Failure>, params: Params)
      modifies this
      ensures Pipeline.Prepare(old(Snapshot()), env) ==
        if aborted.Some? then Aborted(aborted.value, Snapshot()) else Ready(params, Snapshot())
    {
      ghost var d := Snapshot();
      params := Params("", "", map[]);
      if preflight.Some? {
        var err := env.preflight(preflight.value);
        if err.Some? {
          return Some(PreflightFailed(err.value)), params;
        }
      }

      var verb := httpMethod;
      if verb == "" {
        verb := DefaultMethod;
      }

      var requestURL := "";
      if url == "" {
        if getURL.None? {
          return Some(NoTestURL), params;
        }
        url := env.getURL(getURL.value, path);
      } else {
        requestURL := url;
      }
      assert requestURL == d.url && verb == RequestMethod(d);
      params := Params(requestURL, verb, JSONHeaders);
      if query.Some? {
        params := params.(url := params.url + "?" + env.encodeQuery(query.value));
      }
      assert params == BuiltParams(d, env);
      assert Snapshot() == Resolved(d, env);

      if modifyParams.Some? {
        var edit := env.modifyParams(modifyParams.value, params);
        if edit.err.Some? {
          return Some(ModifyParamsFailed(edit.err.value)), params;
        }
        params := edit.params;
      }
      aborted := None;
    }

    /**
     * The checks on a dispatched request, in order, with cookie capture
     * between the structural body check and the structural cookie check.
     */
    method Check(params: Params, ex: Exchange, env: Env) returns (outcome: Outcome)
      modifies this
      ensures RunResult(outcome, Snapshot()) == Respond(old(Snapshot()), params, ex, env)
    {
      var info := Context(ex.responseBody, params.url, params.httpMethod, body);
      if !nilResponse {
        if ex.response.None? {
          return Failed(NilResponse(info));
        } else if ex.response.value.statusCode != expectedStatus {
          return Failed(StatusMismatch(expectedStatus, ex.response.value.statusCode, info));
        }
      }

      if expectedBody != "" && ex.responseBody != expectedBody {
        return Failed(BodyMismatch(expectedBody, ex.responseBody));
      }

      var shown := ex.responseBody;
      if hideResponseBody {
        shown := "";
      }

      var missing := Scan(ex.responseBody, bodyShouldHave, false);
      if missing.Some? {
        return Failed(MissingSubstring(missing.value, bodyShouldHave[missing.value], shown));
      }
      var forbidden := Scan(ex.responseBody, bodyShouldNotHave, true);
      if forbidden.Some? {
        return Failed(ForbiddenSubstring(forbidden.value, bodyShouldNotHave[forbidden.value], shown));
      }

      if expectedM.Some? {
        var err := env.checkJSONString(ex.responseBody, expectedM.value);
        if err.Some? {
          return Failed(ShapeMismatch(err.value, info));
        }
      }
      outcome := CaptureCookies(ex, info, env);
    }

    /** Cookie capture, then the structural cookie check. */
    method CaptureCookies(ex: Exchange, info: Context, env: Env) returns (outcome: Outcome)
      modifies this
      ensures RunResult(outcome, Snapshot()) == Capture(old(Snapshot()), ex, info, env)
    {
      var jar := map[];
      if ex.response.Some? {
        jar := CollectCookies(ex.response.value.cookies);
      }
      cookies := jar;
      assert jar == Captured(ex.response);

      if expectedCookies.Some? {
        var err := env.checkJSON(cookies, expectedCookies.value);
        if err.Some? {
          return Failed(CookieShapeMismatch(err.value, info));
        }
      }
      return Passed;
    }

    /**
     * Called on a template: every test in `tests` has each unset covered
     * field replaced by this template's value, in place; the same sequence
     * is returned so that templates can be chained.  Repeated and aliased
     * entries, including the template itself, are handled as Go handles
     * the same pointer appearing twice.
     */
    method Apply(tests: seq<RouteTest>) returns (r: seq<RouteTest>)
      modifies set t | t in tests
      ensures r == tests
      ensures Snapshot() == old(Snapshot())
      ensures forall t :: t in tests ==> t.Snapshot() == Inherit(old(Snapshot()), old(t.Snapshot()))
    {
      ghost var template := Snapshot();
      InheritSelf(template);
      var n := 0;
      while n < |tests|
        invariant 0 <= n <= |tests|
        invariant Snapshot() == template
        invariant forall t :: t in tests[..n] ==> t.Snapshot() == Inherit(template, old(t.Snapshot()))
        invariant forall t :: t in tests && t !in tests[..n] ==> t.Snapshot() == old(t.Snapshot())
      {
        var test := tests[n];
        FillDefaults(test);
        InheritIdempotent(template, old(test.Snapshot()));
        assert tests[..n + 1] == tests[..n] + [test];
        n := n + 1;
      }
      assert tests[..n] == tests;
      r := tests;
    }

    /**
     * The body of Apply's loop for one target: each unset covered field takes
     * this template's value.  The merged descriptor is computed once by
     * `Inherit`, the per-field rule, and its covered fields are written back
     * onto the target.
     */
    method FillDefaults(test: RouteTest)
      modifies test
      ensures test.Snapshot() == Inherit(old(Snapshot()), old(test.Snapshot()))
    {
      var merged := Inherit(Snapshot(), test.Snapshot());
      test.TakeRequestFields(merged);
      test.TakeExpectationFields(merged);
      test.TakeBodyFields(merged);
    }
  }

  /** The descriptor held by each object of a batch. */
  function Snapshots(tests: seq<RouteTest>): map<RouteTest, Descriptor>
    reads set t | t in tests
  {
    map t | t in tests :: t.Snapshot()
  }
}

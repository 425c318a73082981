/**
 * The single-test pipeline as a function of the descriptor and the
 * collaborators: Preflight, URL resolution, parameter assembly, the
 * ModifyParams hook, dispatch, and then the response checks in their fixed
 * order.  RouteTest.Run is proved to compute exactly `Execute`.
 */
module Pipeline {
  import opened Descriptors
  import opened Checks

  const DefaultMethod := "GET"

  /** The one header every request carries. */
  const JSONHeaders: map<string, string> := map["Content-Type" := "application/json"]

  /** The request method: the descriptor's, or GET when it is unset. */
  function RequestMethod(d: Descriptor): (m: string)
    ensures m != ""
    ensures d.httpMethod != "" ==> m == d.httpMethod
  {
    if d.httpMethod == "" then DefaultMethod else d.httpMethod
  }

  /**
   * The parameters assembled before the ModifyParams hook.  The URL is the
   * descriptor's URL as it was on entry: when that was empty it stays empty,
   * even though the run stores GetURL(Path) on the descriptor.  A query,
   * even an empty one, appends "?" and its encoding.
   */
  function BuiltParams(d: Descriptor, env: Env): (p: Params)
    ensures p.httpMethod != "" && p.headers == JSONHeaders
    ensures d.query.None? ==> p.url == d.url
  {
    var base := Params(d.url, RequestMethod(d), JSONHeaders);
    if d.query.Some? then base.(url := base.url + "?" + env.encodeQuery(d.query.value)) else base
  }

  /** The descriptor after URL resolution: an empty URL is replaced by GetURL(Path). */
  function Resolved(d: Descriptor, env: Env): (r: Descriptor)
    requires d.url != "" || d.getURL.Some?
    ensures SameExceptCaptured(r, d) && r.response == d.response && r.cookies == d.cookies
    ensures d.url != "" ==> r == d
  {
    if d.url == "" then d.(url := env.getURL(d.getURL.value, d.path)) else d
  }

  /** Either the step that aborted the run before dispatch, or the parameters to dispatch. */
  datatype Prepared =
    | Aborted(failure: Failure, after: Descriptor)
    | Ready(params: Params, after: Descriptor)

  /** Everything up to dispatch. */
  function Prepare(d: Descriptor, env: Env): (r: Prepared)
    ensures r.Aborted? ==> r.failure.PreflightFailed? || r.failure.NoTestURL? || r.failure.ModifyParamsFailed?
    ensures r.Aborted? && !r.failure.ModifyParamsFailed? ==> r.after == d
    ensures (r.Ready? || r.failure.ModifyParamsFailed?) ==> (d.url != "" || d.getURL.Some?) && r.after == Resolved(d, env)
  {
    if d.preflight.Some? && env.preflight(d.preflight.value).Some? then
      Aborted(PreflightFailed(env.preflight(d.preflight.value).value), d)
    else if d.url == "" && d.getURL.None? then
      Aborted(NoTestURL, d)
    else
      var after := Resolved(d, env);
      var built := BuiltParams(d, env);
      if d.modifyParams.None? then Ready(built, after)
      else
        var edit := env.modifyParams(d.modifyParams.value, built);
        if edit.err.Some? then Aborted(ModifyParamsFailed(edit.err.value), after)
        else Ready(edit.params, after)
  }

  /** The body as the substring failures show it: hidden when HideResponseBody is set. */
  function ShownBody(d: Descriptor, body: string): string {
    if d.hideResponseBody then "" else body
  }

  /**
   * The checks after dispatch, in order: response presence and status,
   * exact body, inclusion, exclusion, structural body, cookie capture,
   * structural cookies.  `d` already holds the decoded response.
   */
  function Respond(d: Descriptor, p: Params, ex: Exchange, env: Env): (r: RunResult)
    ensures r.after == d || r.after == d.(cookies := Captured(ex.response))
    ensures r.outcome.Passed? ==> r.after == d.(cookies := Captured(ex.response))
  {
    var info := Context(ex.responseBody, p.url, p.httpMethod, d.body);
    var missing := FirstOffending(ex.responseBody, d.bodyShouldHave, false);
    var forbidden := FirstOffending(ex.responseBody, d.bodyShouldNotHave, true);
    if !d.nilResponse && ex.response.None? then
      RunResult(Failed(NilResponse(info)), d)
    else if !d.nilResponse && ex.response.value.statusCode != d.expectedStatus then
      RunResult(Failed(StatusMismatch(d.expectedStatus, ex.response.value.statusCode, info)), d)
    else if d.expectedBody != "" && ex.responseBody != d.expectedBody then
      RunResult(Failed(BodyMismatch(d.expectedBody, ex.responseBody)), d)
    else if missing.Some? then
      var i := missing.value;
      RunResult(Failed(MissingSubstring(i, d.bodyShouldHave[i], ShownBody(d, ex.responseBody))), d)
    else if forbidden.Some? then
      var i := forbidden.value;
      RunResult(Failed(ForbiddenSubstring(i, d.bodyShouldNotHave[i], ShownBody(d, ex.responseBody))), d)
    else if d.expectedM.Some? && env.checkJSONString(ex.responseBody, d.expectedM.value).Some? then
      RunResult(Failed(ShapeMismatch(env.checkJSONString(ex.responseBody, d.expectedM.value).value, info)), d)
    else
      Capture(d, ex, info, env)
  }

  /** The last two steps: the cookies of the response replace Cookies, then the structural cookie check. */
  function Capture(d: Descriptor, ex: Exchange, info: Context, env: Env): (r: RunResult)
    ensures r.after == d.(cookies := Captured(ex.response))
    ensures r.outcome.Failed? ==> r.outcome.failure.CookieShapeMismatch? && r.outcome.failure.info == info
  {
    var captured := d.(cookies := Captured(ex.response));
    if d.expectedCookies.Some? && env.checkJSON(captured.cookies, d.expectedCookies.value).Some? then
      RunResult(Failed(CookieShapeMismatch(env.checkJSON(captured.cookies, d.expectedCookies.value).value, info)), captured)
    else
      RunResult(Passed, captured)
  }

  /** One whole run of a descriptor. */
  function Execute(d: Descriptor, env: Env): (r: RunResult)
    ensures r.after.name == d.name && r.after.only == d.only
  {
    match Prepare(d, env)
    case Aborted(failure, after) => RunResult(Failed(failure), after)
    case Ready(p, after) =>
      var ex := env.dispatch(p, after.body, after.response);
      Respond(after.(response := ex.decoded), p, ex, env)
  }

  // ---------------------------------------------------------------------
  // Early exits

  /** A Preflight error is returned verbatim and nothing else happens. */
  lemma PreflightErrorFirst(d: Descriptor, env: Env)
    requires d.preflight.Some? && env.preflight(d.preflight.value).Some?
    ensures Execute(d, env) == RunResult(Failed(PreflightFailed(env.preflight(d.preflight.value).value)), d)
  {
  }

  /**
   * Without a URL and without GetURL the run fails with the configuration
   * error, whatever ModifyParams and dispatch would do.
   */
  lemma MissingURLFailsBeforeHooks(d: Descriptor, env: Env,
                                   rewrite: (HookId, Params) -> Edit,
                                   dispatch: (Params, Value, map<string, Value>) -> Exchange)
    requires d.preflight.None? || env.preflight(d.preflight.value).None?
    requires d.url == "" && d.getURL.None?
    ensures Execute(d, env) == RunResult(Failed(NoTestURL), d)
    ensures Execute(d, env.(modifyParams := rewrite, dispatch := dispatch)) == Execute(d, env)
  {
  }

  /**
   * A ModifyParams error is returned verbatim, dispatch is never consulted,
   * and the resolved URL has already been stored on the descriptor.
   */
  lemma ModifyParamsErrorBeforeDispatch(d: Descriptor, env: Env,
                                        dispatch: (Params, Value, map<string, Value>) -> Exchange)
    requires d.preflight.None? || env.preflight(d.preflight.value).None?
    requires d.url != "" || d.getURL.Some?
    requires d.modifyParams.Some? && env.modifyParams(d.modifyParams.value, BuiltParams(d, env)).err.Some?
    ensures Execute(d, env) == RunResult(
      Failed(ModifyParamsFailed(env.modifyParams(d.modifyParams.value, BuiltParams(d, env)).err.value)),
      Resolved(d, env))
    ensures Execute(d, env.(dispatch := dispatch)) == Execute(d, env)
  {
  }

  /** A transport error reported by dispatch never changes the run: the error is only logged. */
  lemma TransportErrorIgnored(d: Descriptor, env: Env, errs: (Params, Value, map<string, Value>) -> Option<Error>)
    ensures Execute(d, env.(dispatch := (p, b, r) => env.dispatch(p, b, r).(err := errs(p, b, r)))) == Execute(d, env)
  {
    var env2 := env.(dispatch := (p, b, r) => env.dispatch(p, b, r).(err := errs(p, b, r)));
    assert Prepare(d, env2) == Prepare(d, env);
    match Prepare(d, env)
    case Aborted(_, _) =>
    case Ready(p, a) =>
      var ex := env.dispatch(p, a.body, a.response);
      assert env2.dispatch(p, a.body, a.response) == ex.(err := errs(p, a.body, a.response));
      RespondIgnoresTransportError(a.(response := ex.decoded), p, ex, errs(p, a.body, a.response), env);
  }

  /** The checks never look at the transport error. */
  lemma RespondIgnoresTransportError(d: Descriptor, p: Params, ex: Exchange, err: Option<Error>, env: Env)
    ensures Respond(d, p, ex.(err := err), env) == Respond(d, p, ex, env)
  {
  }

  // ---------------------------------------------------------------------
  // Request assembly

  /**
   * The dispatched URL without ModifyParams: the URL the descriptor had on
   * entry (so "" when it was resolved through GetURL), then "?" and the
   * encoded query whenever a query map is present, even an empty one.
   */
  lemma DispatchedURL(d: Descriptor, env: Env)
    requires d.preflight.None? || env.preflight(d.preflight.value).None?
    requires d.url != "" || d.getURL.Some?
    requires d.modifyParams.None?
    ensures Prepare(d, env).Ready?
    ensures Prepare(d, env).params.url ==
      d.url + (if d.query.Some? then "?" + env.encodeQuery(d.query.value) else "")
    ensures Prepare(d, env).params.httpMethod == (if d.httpMethod == "" then "GET" else d.httpMethod)
    ensures Prepare(d, env).params.headers == map["Content-Type" := "application/json"]
    ensures d.url == "" ==> Prepare(d, env).after.url == env.getURL(d.getURL.value, d.path)
  {
  }

  /** The URL resolved through GetURL persists, so running the same descriptor again dispatches to it. */
  lemma SecondRunUsesResolvedURL(d: Descriptor, env: Env)
    requires d.preflight.None? || env.preflight(d.preflight.value).None?
    requires d.url == "" && d.getURL.Some?
    requires env.getURL(d.getURL.value, d.path) != ""
    requires d.modifyParams.None? && d.query.None?
    ensures Prepare(d, env).Ready? && Prepare(d, env).params.url == ""
    ensures var again := Prepare(Execute(d, env).after, env);
      again.Ready? && again.params.url == env.getURL(d.getURL.value, d.path)
  {
    var a := Execute(d, env).after;
    assert a.url == env.getURL(d.getURL.value, d.path) by {
      var ex := env.dispatch(BuiltParams(d, env), d.body, d.response);
      CookiesCapturedAfterShapeCheck(Resolved(d, env).(response := ex.decoded), BuiltParams(d, env), ex, env);
    }
    ExecuteWritesOnlyCapturedFields(d, env);
  }

  // ---------------------------------------------------------------------
  // Response checks

  /** Unless NilResponse is set, a missing response fails first and then a status mismatch does. */
  lemma StatusCheckedFirst(d: Descriptor, p: Params, ex: Exchange, env: Env)
    requires !d.nilResponse
    ensures ex.response.None? ==>
      Respond(d, p, ex, env).outcome == Failed(NilResponse(Context(ex.responseBody, p.url, p.httpMethod, d.body)))
    ensures ex.response.Some? && ex.response.value.statusCode != d.expectedStatus ==>
      Respond(d, p, ex, env).outcome ==
        Failed(StatusMismatch(d.expectedStatus, ex.response.value.statusCode, Context(ex.responseBody, p.url, p.httpMethod, d.body)))
  {
  }

  /** With NilResponse set, neither presence nor status is ever reported. */
  lemma NilResponseSkipsStatus(d: Descriptor, p: Params, ex: Exchange, env: Env)
    requires d.nilResponse
    ensures !Respond(d, p, ex, env).outcome.Failed? ||
      (!Respond(d, p, ex, env).outcome.failure.NilResponse? && !Respond(d, p, ex, env).outcome.failure.StatusMismatch?)
  {
  }

  /** An exact-body failure happens only when ExpectedBody is set, differs from the body, and the status passed. */
  lemma BodyMismatchOnlyWhenSetAndDifferent(d: Descriptor, p: Params, ex: Exchange, env: Env)
    requires Respond(d, p, ex, env).outcome.Failed? && Respond(d, p, ex, env).outcome.failure.BodyMismatch?
    ensures d.expectedBody != "" && ex.responseBody != d.expectedBody
    ensures Respond(d, p, ex, env).outcome.failure == BodyMismatch(d.expectedBody, ex.responseBody)
    ensures d.nilResponse || (ex.response.Some? && ex.response.value.statusCode == d.expectedStatus)
  {
  }

  /**
   * A missing-substring failure names the smallest index whose entry is not
   * in the body, and is reported only after the status and exact-body checks
   * passed; nothing from BodyShouldNotHave is consulted before it.
   */
  lemma MissingSubstringIsFirst(d: Descriptor, p: Params, ex: Exchange, env: Env)
    requires Respond(d, p, ex, env).outcome.Failed? && Respond(d, p, ex, env).outcome.failure.MissingSubstring?
    ensures var f := Respond(d, p, ex, env).outcome.failure;
      && f.index < |d.bodyShouldHave| && f.substring == d.bodyShouldHave[f.index]
      && !Contains(ex.responseBody, f.substring)
      && (forall j :: 0 <= j < f.index ==> Contains(ex.responseBody, d.bodyShouldHave[j]))
      && f.shownBody == (if d.hideResponseBody then "" else ex.responseBody)
    ensures d.nilResponse || (ex.response.Some? && ex.response.value.statusCode == d.expectedStatus)
    ensures d.expectedBody == "" || ex.responseBody == d.expectedBody
  {
  }

  /**
   * A forbidden-substring failure names the smallest present index, and is
   * reported only after the status and exact-body checks passed and every
   * BodyShouldHave entry was found.
   */
  lemma ForbiddenSubstringIsFirst(d: Descriptor, p: Params, ex: Exchange, env: Env)
    requires Respond(d, p, ex, env).outcome.Failed? && Respond(d, p, ex, env).outcome.failure.ForbiddenSubstring?
    ensures var f := Respond(d, p, ex, env).outcome.failure;
      && f.index < |d.bodyShouldNotHave| && f.substring == d.bodyShouldNotHave[f.index]
      && Contains(ex.responseBody, f.substring)
      && (forall j :: 0 <= j < f.index ==> !Contains(ex.responseBody, d.bodyShouldNotHave[j]))
      && f.shownBody == (if d.hideResponseBody then "" else ex.responseBody)
    ensures forall j :: 0 <= j < |d.bodyShouldHave| ==> Contains(ex.responseBody, d.bodyShouldHave[j])
    ensures d.nilResponse || (ex.response.Some? && ex.response.value.statusCode == d.expectedStatus)
    ensures d.expectedBody == "" || ex.responseBody == d.expectedBody
  {
  }

  /**
   * The presence-and-status check reports a failure exactly when it does
   * not pass; no later check can produce NilResponse or StatusMismatch.
   */
  lemma StatusFailureIff(d: Descriptor, p: Params, ex: Exchange, env: Env)
    ensures var o := Respond(d, p, ex, env).outcome;
      (o.Failed? && (o.failure.NilResponse? || o.failure.StatusMismatch?)) <==> !StatusPasses(d, ex)
  {
  }

  /**
   * The exact-body check fails the run exactly when the status check passed
   * and ExpectedBody is set and differs from the body, and then it reports
   * both bodies.
   */
  lemma BodyMismatchIff(d: Descriptor, p: Params, ex: Exchange, env: Env)
    ensures var o := Respond(d, p, ex, env).outcome;
      (o.Failed? && o.failure.BodyMismatch?) <==> StatusPasses(d, ex) && !BodyPasses(d, ex)
    ensures StatusPasses(d, ex) && !BodyPasses(d, ex) ==>
      Respond(d, p, ex, env).outcome == Failed(BodyMismatch(d.expectedBody, ex.responseBody))
  {
  }

  /**
   * The inclusion check fails the run exactly when the status and exact-body
   * checks passed and some BodyShouldHave entry is absent, and then it names
   * the first absent entry.
   */
  lemma MissingSubstringIff(d: Descriptor, p: Params, ex: Exchange, env: Env)
    ensures var o := Respond(d, p, ex, env).outcome;
      (o.Failed? && o.failure.MissingSubstring?) <==>
        StatusPasses(d, ex) && BodyPasses(d, ex) && FirstOffending(ex.responseBody, d.bodyShouldHave, false).Some?
    ensures var m := FirstOffending(ex.responseBody, d.bodyShouldHave, false);
      StatusPasses(d, ex) && BodyPasses(d, ex) && m.Some? ==>
        Respond(d, p, ex, env).outcome ==
          Failed(MissingSubstring(m.value, d.bodyShouldHave[m.value], ShownBody(d, ex.responseBody)))
  {
  }

  /**
   * The exclusion check fails the run exactly when every earlier check
   * passed and some BodyShouldNotHave entry is present, and then it names
   * the first present entry.
   */
  lemma ForbiddenSubstringIff(d: Descriptor, p: Params, ex: Exchange, env: Env)
    ensures var o := Respond(d, p, ex, env).outcome;
      (o.Failed? && o.failure.ForbiddenSubstring?) <==>
        && StatusPasses(d, ex) && BodyPasses(d, ex)
        && FirstOffending(ex.responseBody, d.bodyShouldHave, false).None?
        && FirstOffending(ex.responseBody, d.bodyShouldNotHave, true).Some?
    ensures var f := FirstOffending(ex.responseBody, d.bodyShouldNotHave, true);
      && StatusPasses(d, ex) && BodyPasses(d, ex)
      && FirstOffending(ex.responseBody, d.bodyShouldHave, false).None? && f.Some? ==>
        Respond(d, p, ex, env).outcome ==
          Failed(ForbiddenSubstring(f.value, d.bodyShouldNotHave[f.value], ShownBody(d, ex.responseBody)))
  {
  }

  /** The response is present with the expected status, or NilResponse waives the check. */
  predicate StatusPasses(d: Descriptor, ex: Exchange) {
    d.nilResponse || (ex.response.Some? && ex.response.value.statusCode == d.expectedStatus)
  }

  /** ExpectedBody is unset or equals the raw body. */
  predicate BodyPasses(d: Descriptor, ex: Exchange) {
    d.expectedBody == "" || ex.responseBody == d.expectedBody
  }

  /** Every BodyShouldHave entry is in the body and no BodyShouldNotHave entry is. */
  predicate SubstringsPass(d: Descriptor, ex: Exchange) {
    && (forall j :: 0 <= j < |d.bodyShouldHave| ==> Contains(ex.responseBody, d.bodyShouldHave[j]))
    && (forall j :: 0 <= j < |d.bodyShouldNotHave| ==> !Contains(ex.responseBody, d.bodyShouldNotHave[j]))
  }

  /** ExpectedM is unset or the matcher accepts the raw body. */
  predicate ShapePasses(d: Descriptor, ex: Exchange, env: Env) {
    d.expectedM.None? || env.checkJSONString(ex.responseBody, d.expectedM.value).None?
  }

  /**
   * The structural body check fails the run exactly when the status,
   * exact-body and both substring checks passed and the matcher rejects the
   * body; the failure carries the matcher's error and the context.
   */
  lemma ShapeMismatchIsAfterSubstrings(d: Descriptor, p: Params, ex: Exchange, env: Env)
    ensures var r := Respond(d, p, ex, env);
      (r.outcome.Failed? && r.outcome.failure.ShapeMismatch?) <==>
        StatusPasses(d, ex) && BodyPasses(d, ex) && SubstringsPass(d, ex) && !ShapePasses(d, ex, env)
    ensures var r := Respond(d, p, ex, env);
      r.outcome.Failed? && r.outcome.failure.ShapeMismatch? ==>
        r.outcome.failure == ShapeMismatch(env.checkJSONString(ex.responseBody, d.expectedM.value).value,
                                           Context(ex.responseBody, p.url, p.httpMethod, d.body))
  {
    assert SubstringsPass(d, ex) <==>
      FirstOffending(ex.responseBody, d.bodyShouldHave, false).None? &&
      FirstOffending(ex.responseBody, d.bodyShouldNotHave, true).None?;
  }

  /**
   * The structural cookie check fails the run exactly when every earlier
   * check passed, the structural body check included, and the matcher
   * rejects the cookies captured from the response.
   */
  lemma CookieShapeMismatchIsLast(d: Descriptor, p: Params, ex: Exchange, env: Env)
    ensures var r := Respond(d, p, ex, env);
      (r.outcome.Failed? && r.outcome.failure.CookieShapeMismatch?) <==>
        && StatusPasses(d, ex) && BodyPasses(d, ex) && SubstringsPass(d, ex) && ShapePasses(d, ex, env)
        && d.expectedCookies.Some? && env.checkJSON(Captured(ex.response), d.expectedCookies.value).Some?
  {
    assert SubstringsPass(d, ex) <==>
      FirstOffending(ex.responseBody, d.bodyShouldHave, false).None? &&
      FirstOffending(ex.responseBody, d.bodyShouldNotHave, true).None?;
  }

  /**
   * Cookies are captured only once every check up to the structural body
   * check has passed: an earlier failure leaves the previous map in place,
   * and otherwise the map is rebuilt from the response (empty without one).
   */
  lemma CookiesCapturedAfterShapeCheck(d: Descriptor, p: Params, ex: Exchange, env: Env)
    ensures var r := Respond(d, p, ex, env);
      if r.outcome.Passed? || r.outcome.failure.CookieShapeMismatch? then r.after == d.(cookies := Captured(ex.response))
      else r.after == d
    ensures var r := Respond(d, p, ex, env);
      r.outcome.Failed? && r.outcome.failure.CookieShapeMismatch? ==> ShapePasses(d, ex, env)
    ensures Respond(d, p, ex, env).outcome.Passed? && ex.response.None? ==> Respond(d, p, ex, env).after.cookies == map[]
  {
    CookieShapeMismatchIsLast(d, p, ex, env);
  }

  /** A run that wrote Cookies got past every check up to the structural body check. */
  lemma CookiesWrittenOnlyAfterChecks(d: Descriptor, p: Params, ex: Exchange, env: Env)
    ensures Respond(d, p, ex, env).after.cookies != d.cookies ==>
      StatusPasses(d, ex) && BodyPasses(d, ex) && SubstringsPass(d, ex) && ShapePasses(d, ex, env)
  {
    CookiesCapturedAfterShapeCheck(d, p, ex, env);
    CookieShapeMismatchIsLast(d, p, ex, env);
    RespondPassesIff(d, p, ex, env);
  }

  /** A run passes exactly when every configured check passes. */
  lemma RespondPassesIff(d: Descriptor, p: Params, ex: Exchange, env: Env)
    ensures Respond(d, p, ex, env).outcome.Passed? <==>
      && (d.nilResponse || (ex.response.Some? && ex.response.value.statusCode == d.expectedStatus))
      && (d.expectedBody == "" || ex.responseBody == d.expectedBody)
      && (forall j :: 0 <= j < |d.bodyShouldHave| ==> Contains(ex.responseBody, d.bodyShouldHave[j]))
      && (forall j :: 0 <= j < |d.bodyShouldNotHave| ==> !Contains(ex.responseBody, d.bodyShouldNotHave[j]))
      && (d.expectedM.None? || env.checkJSONString(ex.responseBody, d.expectedM.value).None?)
      && (d.expectedCookies.None? || env.checkJSON(Captured(ex.response), d.expectedCookies.value).None?)
  {
    assert SubstringsPass(d, ex) <==>
      FirstOffending(ex.responseBody, d.bodyShouldHave, false).None? &&
      FirstOffending(ex.responseBody, d.bodyShouldNotHave, true).None?;
  }

  /** The descriptors agree on every field except URL, Response and Cookies. */
  predicate SameExceptCaptured(a: Descriptor, b: Descriptor) {
    && a.body == b.body && a.bodyShouldHave == b.bodyShouldHave && a.bodyShouldNotHave == b.bodyShouldNotHave
    && a.expectedBody == b.expectedBody && a.expectedCookies == b.expectedCookies
    && a.expectedStatus == b.expectedStatus && a.expectedM == b.expectedM && a.getURL == b.getURL
    && a.hideResponseBody == b.hideResponseBody && a.httpMethod == b.httpMethod
    && a.modifyParams == b.modifyParams && a.name == b.name && a.only == b.only && a.path == b.path
    && a.preflight == b.preflight && a.query == b.query && a.nilResponse == b.nilResponse
  }

  /**
   * A run touches only URL (and only when it was empty), the decoded
   * Response, and Cookies.
   */
  lemma ExecuteWritesOnlyCapturedFields(d: Descriptor, env: Env)
    ensures SameExceptCaptured(Execute(d, env).after, d)
    ensures d.url != "" ==> Execute(d, env).after.url == d.url
  {
    var pr := Prepare(d, env);
    assert pr.after == d || (d.url == "" && pr.after == d.(url := env.getURL(d.getURL.value, d.path)));
    match pr
    case Aborted(_, _) =>
    case Ready(p, a) =>
      var ex := env.dispatch(p, a.body, a.response);
      var a2 := a.(response := ex.decoded);
      assert Execute(d, env) == Respond(a2, p, ex, env);
      CookiesCapturedAfterShapeCheck(a2, p, ex, env);
      assert SameExceptCaptured(a2, d);
  }

  // ---------------------------------------------------------------------
  // End-to-end scenarios

  /** An environment whose hooks all succeed, whose matcher accepts everything, and whose server answers `ex`. */
  function Serving(ex: Exchange): Env {
    Env(h => None, (h, path) => "http://host" + path, (h, p) => Edit(p, None), q => "",
        (p, b, r) => ex, (s, shape) => None, (m, shape) => None)
  }

  /** A server that answers 200 with an empty body at http://host/health and nothing anywhere else. */
  function HealthServer(): Env {
    Serving(Exchange(None, "", map[], None)).(dispatch := (p: Params, b: Value, r: map<string, Value>) =>
      if p.url == "http://host/health" then Exchange(Some(HttpResponse(200, [])), "", map[], None)
      else Exchange(None, "", map[], Some("unsupported protocol scheme")))
  }

  /** GET http://host/health expecting 200, answered by 200 with an empty body: the run passes. */
  lemma HealthCheckPasses()
    ensures var d := ZeroDescriptor.(httpMethod := "GET", url := "http://host/health", expectedStatus := 200);
      Execute(d, HealthServer()).outcome == Passed
  {
  }

  /**
   * The same check given as Path "/health" and a GetURL hook: the first run
   * dispatches to "" and finds no response, but stores the resolved URL, so
   * a second run of the same test reaches the server and passes.
   */
  lemma HealthCheckThroughGetURL()
    ensures var d := ZeroDescriptor.(httpMethod := "GET", path := "/health", getURL := Some(0), expectedStatus := 200);
      var first := Execute(d, HealthServer());
      && first.outcome == Failed(NilResponse(Context("", "", "GET", "")))
      && first.after.url == "http://host/health"
      && Execute(first.after, HealthServer()).outcome == Passed
  {
    var d := ZeroDescriptor.(httpMethod := "GET", path := "/health", getURL := Some(0), expectedStatus := 200);
    assert Prepare(d, HealthServer()) == Ready(Params("", "GET", JSONHeaders), d.(url := "http://host/health"));
  }

  /**
   * BodyShouldHave ["foo", "bar"] against a 200 response with body "foo":
   * the whole run fails naming index 1 and "bar", and shows the body.
   */
  lemma SecondEntryMissingFailsRun()
    ensures var d := ZeroDescriptor.(url := "http://host/x", expectedStatus := 200, bodyShouldHave := ["foo", "bar"]);
      Execute(d, Serving(Exchange(Some(HttpResponse(200, [])), "foo", map[], None))).outcome ==
        Failed(MissingSubstring(1, "bar", "foo"))
  {
    SecondEntryMissing();
  }

  /** Expecting 200 and getting 404 reports the status mismatch with the diagnostic context. */
  lemma NotFoundIsStatusMismatch()
    ensures var d := ZeroDescriptor.(url := "http://host/x", expectedStatus := 200, expectedBody := "ok");
      Execute(d, Serving(Exchange(Some(HttpResponse(404, [])), "missing", map[], None))).outcome
        == Failed(StatusMismatch(200, 404, Context("missing", "http://host/x", "GET", "")))
  {
  }

  /**
   * A structural body shape that the matcher rejects fails the run with the
   * matcher's error and the diagnostic context of the request.
   */
  lemma ShapeMismatchReportsContext()
    ensures var d := ZeroDescriptor.(url := "http://host/items", httpMethod := "POST", body := "payload",
                                     expectedStatus := 200, expectedM := Some("id-is-number"));
      var env := Serving(Exchange(Some(HttpResponse(200, [])), "id=x", map[], None))
                   .(checkJSONString := (s, shape) => Some("id: not a number"));
      Execute(d, env).outcome ==
        Failed(ShapeMismatch("id: not a number", Context("id=x", "http://host/items", "POST", "payload")))
  {
  }

  /** NilResponse with a refused connection and no other expectations passes. */
  lemma RefusedConnectionWithNilResponsePasses()
    ensures var d := ZeroDescriptor.(url := "http://host/down", nilResponse := true);
      Execute(d, Serving(Exchange(None, "", map[], Some("connection refused")))).outcome == Passed
  {
  }
}

/**
 * The test descriptor of the route-test harness, the collaborators it talks
 * to, and the value view of the default-inheritance resolver.
 *
 * Go's zero-value convention is kept: an unset string is "", an unset status
 * is 0, an unset list has length 0, and a nil pointer or nil func is None.
 */
module Descriptors {

  datatype Option<T> = None | Some(value: T)

  /** An arbitrary Go value (request payload, decoded JSON field, query value). */
  type Value = string

  /** An expected-shape specification handed to the structural matcher. */
  type Shape = string

  /** Handle of a caller-supplied closure; what it does is given by an `Env`. */
  type HookId = nat

  /** An error value, identified by its message. */
  type Error = string

  datatype Cookie = Cookie(name: string, value: string)

  datatype HttpResponse = HttpResponse(statusCode: int, cookies: seq<Cookie>)

  /** The request parameters that are assembled, handed to ModifyParams and dispatched. */
  datatype Params = Params(url: string, httpMethod: string, headers: map<string, string>)

  /** What a ModifyParams hook leaves behind: the (possibly rewritten) parameters and its error. */
  datatype Edit = Edit(params: Params, err: Option<Error>)

  /**
   * What the request executor produces: the response object (nil on a
   * transport failure), the raw body text, the new contents of the decode
   * destination, and the transport or decoding error.
   */
  datatype Exchange = Exchange(
    response: Option<HttpResponse>,
    responseBody: string,
    decoded: map<string, Value>,
    err: Option<Error>)


  /**
   * The collaborators outside the core.  Hooks are looked up by handle; the
   * matcher's two entry points answer None when the value matches the shape.
   */
  datatype Env = Env(
    preflight: HookId -> Option<Error>,
    getURL: (HookId, string) -> string,
    modifyParams: (HookId, Params) -> Edit,
    encodeQuery: map<string, Value> -> string,
    dispatch: (Params, Value, map<string, Value>) -> Exchange,
    checkJSONString: (string, Shape) -> Option<Error>,
    checkJSON: (map<string, string>, Shape) -> Option<Error>)

  /** The diagnostic block attached to the response failures: body, URL, method, payload. */
  datatype Context = Context(responseBody: string, url: string, httpMethod: string, payload: Value)

  /** The first step of a single test run that failed. */
  datatype Failure =
    | PreflightFailed(err: Error)
    | NoTestURL
    | ModifyParamsFailed(err: Error)
    | NilResponse(info: Context)
    | StatusMismatch(expected: int, got: int, info: Context)
    | BodyMismatch(expectedBody: string, foundBody: string)
    | MissingSubstring(index: nat, substring: string, shownBody: string)
    | ForbiddenSubstring(index: nat, substring: string, shownBody: string)
    | ShapeMismatch(err: Error, info: Context)
    | CookieShapeMismatch(err: Error, info: Context)

  datatype Outcome = Passed | Failed(failure: Failure)

  /** One test case: request shape, expectations, hooks and captured output. */
  datatype Descriptor = Descriptor(
    body: Value,
    bodyShouldHave: seq<string>,
    bodyShouldNotHave: seq<string>,
    cookies: map<string, string>,
    expectedBody: string,
    expectedCookies: Option<Shape>,
    expectedStatus: int,
    expectedM: Option<Shape>,
    getURL: Option<HookId>,
    hideResponseBody: bool,
    httpMethod: string,
    modifyParams: Option<HookId>,
    name: string,
    only: bool,
    path: string,
    preflight: Option<HookId>,
    query: Option<map<string, Value>>,
    response: map<string, Value>,
    nilResponse: bool,
    url: string)

  /** The outcome of one run together with the descriptor as the run leaves it. */
  datatype RunResult = RunResult(outcome: Outcome, after: Descriptor)

  /** The Go zero value of a descriptor. */
  const ZeroDescriptor: Descriptor :=
    Descriptor("", [], [], map[], "", None, 0, None, None, false, "", None, "", false, "", None, None, map[], false, "")

  /** The eleven fields the resolver fills in. */
  datatype CoveredField =
    | Path | Method | ModifyParams | ExpectedStatus | ExpectedM | Query
    | Preflight | ExpectedCookies | BodyShouldHave | BodyShouldNotHave | ExpectedBody

  /** The value of a covered field, whatever its type. */
  datatype FieldValue =
    | Text(text: string)
    | Hook(hook: Option<HookId>)
    | Status(code: int)
    | ShapeRef(shape: Option<Shape>)
    | QueryRef(query: Option<map<string, Value>>)
    | Texts(items: seq<string>)

  function Get(d: Descriptor, f: CoveredField): FieldValue {
    match f
    case Path => Text(d.path)
    case Method => Text(d.httpMethod)
    case ModifyParams => Hook(d.modifyParams)
    case ExpectedStatus => Status(d.expectedStatus)
    case ExpectedM => ShapeRef(d.expectedM)
    case Query => QueryRef(d.query)
    case Preflight => Hook(d.preflight)
    case ExpectedCookies => ShapeRef(d.expectedCookies)
    case BodyShouldHave => Texts(d.bodyShouldHave)
    case BodyShouldNotHave => Texts(d.bodyShouldNotHave)
    case ExpectedBody => Text(d.expectedBody)
  }

  /** A covered field holds its zero value: "", nil, 0 or a zero-length slice. */
  predicate IsUnset(d: Descriptor, f: CoveredField) {
    match f
    case Path => d.path == ""
    case Method => d.httpMethod == ""
    case ModifyParams => d.modifyParams.None?
    case ExpectedStatus => d.expectedStatus == 0
    case ExpectedM => d.expectedM.None?
    case Query => d.query.None?
    case Preflight => d.preflight.None?
    case ExpectedCookies => d.expectedCookies.None?
    case BodyShouldHave => |d.bodyShouldHave| == 0
    case BodyShouldNotHave => |d.bodyShouldNotHave| == 0
    case ExpectedBody => d.expectedBody == ""
  }

  /** The two descriptors agree on every field the resolver never writes. */
  predicate SameUncovered(a: Descriptor, b: Descriptor) {
    && a.name == b.name && a.only == b.only && a.body == b.body && a.url == b.url
    && a.getURL == b.getURL && a.hideResponseBody == b.hideResponseBody
    && a.nilResponse == b.nilResponse && a.response == b.response && a.cookies == b.cookies
  }

  /**
   * What Apply does to one target: each covered field that is unset takes the
   * template's value; every other field is left alone.
   */
  function Inherit(template: Descriptor, target: Descriptor): Descriptor {
    target.(
      bodyShouldHave := if |target.bodyShouldHave| == 0 then template.bodyShouldHave else target.bodyShouldHave,
      bodyShouldNotHave := if |target.bodyShouldNotHave| == 0 then template.bodyShouldNotHave else target.bodyShouldNotHave,
      expectedBody := if target.expectedBody == "" then template.expectedBody else target.expectedBody,
      expectedCookies := if target.expectedCookies.None? then template.expectedCookies else target.expectedCookies,
      expectedStatus := if target.expectedStatus == 0 then template.expectedStatus else target.expectedStatus,
      expectedM := if target.expectedM.None? then template.expectedM else target.expectedM,
      httpMethod := if target.httpMethod == "" then template.httpMethod else target.httpMethod,
      modifyParams := if target.modifyParams.None? then template.modifyParams else target.modifyParams,
      path := if target.path == "" then template.path else target.path,
      preflight := if target.preflight.None? then template.preflight else target.preflight,
      query := if target.query.None? then template.query else target.query)
  }

  /** Each covered field of the result is the template's when the target left it unset, else the target's. */
  lemma InheritField(template: Descriptor, target: Descriptor, f: CoveredField)
    ensures Get(Inherit(template, target), f) == if IsUnset(target, f) then Get(template, f) else Get(target, f)
  {
  }

  /** The fields outside the covered eleven are never written. */
  lemma InheritKeepsUncovered(template: Descriptor, target: Descriptor)
    ensures SameUncovered(Inherit(template, target), target)
  {
  }

  /** After inheriting, a covered field is still unset only if target and template both left it unset. */
  lemma InheritLeavesUnsetOnlyIfBoth(template: Descriptor, target: Descriptor, f: CoveredField)
    ensures IsUnset(Inherit(template, target), f) <==> IsUnset(target, f) && IsUnset(template, f)
  {
    var r := Inherit(template, target);
    assert Get(r, f) == if IsUnset(target, f) then Get(template, f) else Get(target, f);
  }

  /** Applying the same template a second time changes nothing. */
  lemma InheritIdempotent(template: Descriptor, target: Descriptor)
    ensures Inherit(template, Inherit(template, target)) == Inherit(template, target)
  {
  }

  /** A template applied to itself is unchanged, so Apply never alters its own template. */
  lemma InheritSelf(template: Descriptor)
    ensures Inherit(template, template) == template
  {
  }

  /**
   * The per-field rule and the untouched fields pin down the result of
   * Apply: any descriptor obeying both is Inherit(template, target).
   */
  lemma InheritUnique(template: Descriptor, target: Descriptor, r: Descriptor)
    requires forall f: CoveredField :: Get(r, f) == if IsUnset(target, f) then Get(template, f) else Get(target, f)
    requires SameUncovered(r, target)
    ensures r == Inherit(template, target)
  {
    var m := Inherit(template, target);
    forall f: CoveredField ensures Get(r, f) == Get(m, f) {
      InheritField(template, target, f);
    }
    InheritKeepsUncovered(template, target);
    DescriptorExtensionality(r, m);
  }

  /** A descriptor and its values are determined by its covered and uncovered fields. */
  lemma DescriptorExtensionality(a: Descriptor, b: Descriptor)
    requires forall f: CoveredField :: Get(a, f) == Get(b, f)
    requires SameUncovered(a, b)
    ensures a == b
  {
    assert Get(a, Path) == Get(b, Path);
    assert Get(a, Method) == Get(b, Method);
    assert Get(a, ModifyParams) == Get(b, ModifyParams);
    assert Get(a, ExpectedStatus) == Get(b, ExpectedStatus);
    assert Get(a, ExpectedM) == Get(b, ExpectedM);
    assert Get(a, Query) == Get(b, Query);
    assert Get(a, Preflight) == Get(b, Preflight);
    assert Get(a, ExpectedCookies) == Get(b, ExpectedCookies);
    assert Get(a, BodyShouldHave) == Get(b, BodyShouldHave);
    assert Get(a, BodyShouldNotHave) == Get(b, BodyShouldNotHave);
    assert Get(a, ExpectedBody) == Get(b, ExpectedBody);
  }
}

# grtest route-test harness — a Dafny model

`grtest` is a declarative HTTP route-testing harness written in Go (`main.go`).
A test is a `RouteTest` record. It describes a request (method, URL or path, query,
payload, hooks) and the expectations about the response (status, exact body,
substrings that must or must not appear, structural shapes of the JSON body and of
the cookies). This project models the three parts of the harness that make
decisions, and proves what they promise:

- **`RunTests`** (module `Batch`): the `Only` filter, then the selected tests run in
  order. The batch stops at the first failure, which it labels with the test's
  position in the selected list and its name.
- **`(*RouteTest).Run`** (modules `Pipeline` and `RouteTests`): the single-test
  pipeline. It runs Preflight, URL resolution, parameter assembly, the ModifyParams
  hook and dispatch, then the checks in their fixed order: nil response and status,
  exact body, inclusion, exclusion, structural body, cookie capture and structural
  cookies.
- **`(*RouteTest).Apply`** (modules `Descriptors` and `RouteTests`): the
  default-inheritance resolver. It fills the eleven covered fields of each target
  that still hold their Go zero value, in place, and returns the same slice.

Layout:

- `descriptors.dfy` holds the `Descriptor` value, the collaborators `Env`, and
  `Inherit`, the per-target rule of `Apply`.
- `checks.dfy` holds substring search, the first offending entry, and the cookie map.
- `pipeline.dfy` holds `Execute`, the whole run as a function, with its properties.
- `route_test.dfy` holds the `RouteTest` class. Its methods `Run` and `Apply` update
  its fields in place and are proved equal to `Execute` and `Inherit`.
- `batch.dfy` holds the selection, the fail-fast batch specification `RunBatch`, and
  the `RunTests` loop proved against it.

Go's zero-value convention is kept as written: an unset string is `""`, an unset
status is `0`, an unset slice has length 0, and a nil pointer or func is `None`.

The collaborators outside the core are fields of `Env`: the hooks (looked up by
their `HookId`), the request executor `dispatch`, the query encoder and the two
entry points of the structural matcher. The properties quantify over every `Env`,
so they hold whatever the collaborators answer. Within one run the collaborators
are fixed. The batch runner takes one `Env` per position (`envs(k)` for the `k`-th
run), so a server whose answers change from one test to the next is covered as well.

The model follows the code as written, including three behaviours a reader might
not expect:

- When `URL` is empty, `Run` stores `GetURL(Path)` on the test, but the parameters
  it dispatches carry the URL the test had on entry, which is `""` (or `"?"` plus
  the query). The resolved URL is used only from the next run of the same test on
  (`Pipeline.DispatchedURL`, `Pipeline.SecondRunUsesResolvedURL`).
- A query map that is present but empty still appends `"?"`.
- `Cookies` is reset and captured only after the structural body check has passed,
  not at the start of response processing. An earlier failure leaves the previous
  map in place (`Pipeline.CookiesCapturedAfterShapeCheck`).

## Model

| member | source | states |
|---|---|---|
| `Descriptors.Inherit` | main.go:184-217 | the per-target rule of Apply; its contract is stated by InheritField, InheritKeepsUncovered and InheritUnique below |
| `Descriptors.InheritUnique` | main.go:184-217 | the per-field rule and the untouched fields determine the result of Apply on a target: any descriptor obeying both equals Inherit |
| `Descriptors.InheritField` | main.go:184-217 | each covered field of a target after Apply is the template's value exactly when the target's own value was the zero value, and is the target's value otherwise |
| `Descriptors.InheritKeepsUncovered` | main.go:183-219 | Name, Only, Body, URL, GetURL, HideResponseBody, NilResponse, Response and Cookies are never written by Apply |
| `Descriptors.InheritLeavesUnsetOnlyIfBoth` | main.go:184-217 | after Apply a covered field is still zero if and only if both the target and the template left it zero |
| `Descriptors.InheritIdempotent` | main.go:183-219 | applying the same template a second time changes nothing |
| `Descriptors.InheritSelf` | main.go:183-219 | a template applied to itself is unchanged, so a template that appears in its own batch is not altered |
| `Descriptors.DescriptorExtensionality` | main.go:17-38 | the eleven covered fields and the nine uncovered fields together make up the whole RouteTest record |
| `Checks.Contains` | main.go:145-153 | substring search as strings.Contains: a match implies the entry is no longer than the body, and every prefix of the body, the empty string included, is contained |
| `Checks.Captured` | main.go:166-172 | the Cookies map after capture: CookieJar of the response's cookies, or empty without a response; its properties are CookieJar's and CookieJarLastWins' |
| `Checks.FirstOffending` | main.go:143-157 | the reported index is the smallest one whose entry is absent (BodyShouldHave) or present (BodyShouldNotHave), and there is none exactly when every entry passes |
| `Checks.Scan` | main.go:144-148 | the index loop over BodyShouldHave / BodyShouldNotHave stops at the first offending entry, as FirstOffending specifies |
| `Checks.CookieJar` | main.go:166-172 | every cookie name of the response is a key of the captured map, and every key comes from some cookie |
| `Checks.CollectCookies` | main.go:166-171 | inserting the response's cookies one by one into a fresh map yields CookieJar |
| `Checks.CookieJarLastWins` | main.go:169-171 | each name maps to the value of the last cookie carrying that name |
| `Checks.DuplicateSidKeepsLater` | main.go:169-171 | two cookies named "sid": only the later value is kept |
| `Checks.ContainsEmpty` | main.go:145 | an empty BodyShouldHave entry is contained in every body, so it never fails |
| `Checks.SecondEntryMissing` | main.go:143-149 | BodyShouldHave ["foo", "bar"] against the body "foo" fails at index 1 |
| `Pipeline.RequestMethod` | main.go:73-76 | the request method is never empty: the test's own method when set, GET otherwise |
| `Pipeline.ShownBody` | main.go:138-142 | the body the substring failures show: empty under HideResponseBody, the raw body otherwise; stated through MissingSubstringIsFirst and ForbiddenSubstringIsFirst |
| `Pipeline.BuiltParams` | main.go:73-101 | the assembled parameters always carry a non-empty method and the one JSON header, and without a query map their URL is the URL on entry |
| `Pipeline.Resolved` | main.go:79-84 | URL resolution changes only URL, and leaves a non-empty URL alone |
| `Pipeline.Prepare` | main.go:67-108 | the steps before dispatch abort only with a Preflight, missing-URL or ModifyParams error; the first two leave the test untouched; a ModifyParams error or a dispatch happens only with a URL or GetURL, after the URL has been resolved |
| `Pipeline.Respond` | main.go:115-180 | the checks after dispatch leave the test unchanged or change only Cookies, to the map captured from the response, which a passing run always does |
| `Pipeline.Capture` | main.go:166-178 | Cookies becomes the captured map, and the only failure left is the structural cookie mismatch with the diagnostic context |
| `Pipeline.Execute` | main.go:66-181 | a run never changes the name or the Only flag of its test |
| `Pipeline.PreflightErrorFirst` | main.go:67-71 | a Preflight error is returned verbatim and the test is left untouched |
| `Pipeline.MissingURLFailsBeforeHooks` | main.go:78-82 | an empty URL without GetURL fails with the configuration error, whatever ModifyParams and dispatch would do |
| `Pipeline.ModifyParamsErrorBeforeDispatch` | main.go:104-108 | a ModifyParams error is returned verbatim, dispatch is never consulted, and the resolved URL has already been stored |
| `Pipeline.TransportErrorIgnored` | main.go:109-113 | the transport error of dispatch never changes the outcome or the state of a run |
| `Pipeline.DispatchedURL` | main.go:73-101 | the dispatched URL is the URL on entry (so "" when resolved through GetURL) plus "?" and the encoded query whenever a query map is present, even an empty one; the method defaults to GET; the one header is the JSON content type; GetURL(Path) is stored on the test |
| `Pipeline.SecondRunUsesResolvedURL` | main.go:79-86 | the first run through GetURL dispatches to "", and a second run of the same test dispatches to the URL the first run stored |
| `Pipeline.StatusCheckedFirst` | main.go:121-130 | unless NilResponse is set, a missing response fails first, and otherwise a status different from ExpectedStatus fails, both with the diagnostic context |
| `Pipeline.NilResponseSkipsStatus` | main.go:121 | with NilResponse set, neither a missing response nor a status mismatch is ever reported |
| `Pipeline.StatusFailureIff` | main.go:121-130 | the run reports NilResponse or StatusMismatch if and only if the presence-and-status check does not pass |
| `Pipeline.BodyMismatchIff` | main.go:121-136 | the run reports BodyMismatch if and only if the status check passed and ExpectedBody is set and differs from the body, and then it reports both bodies |
| `Pipeline.MissingSubstringIff` | main.go:121-149 | the run reports MissingSubstring if and only if the status and exact-body checks passed and some BodyShouldHave entry is absent, and then it names the first absent entry and the shown body |
| `Pipeline.ForbiddenSubstringIff` | main.go:121-157 | the run reports ForbiddenSubstring if and only if the earlier checks passed, every BodyShouldHave entry is present and some BodyShouldNotHave entry is present, and then it names the first present entry and the shown body |
| `Pipeline.BodyMismatchOnlyWhenSetAndDifferent` | main.go:132-136 | an exact-body failure happens only when ExpectedBody is non-empty and differs from the body, and only after the status check passed |
| `Pipeline.MissingSubstringIsFirst` | main.go:143-149 | a missing-substring failure names the smallest absent index and its entry, shows the body unless HideResponseBody is set, and comes only after the status and exact-body checks passed |
| `Pipeline.ForbiddenSubstringIsFirst` | main.go:121-157 | a forbidden-substring failure names the smallest present index and its entry, shows the body unless HideResponseBody is set, and comes only after the status and exact-body checks passed and every BodyShouldHave entry was found |
| `Pipeline.ShapeMismatchIsAfterSubstrings` | main.go:115-164 | the structural body check fails the run if and only if the status, exact-body and both substring checks passed and the matcher rejects the body; the failure carries the matcher's error and the diagnostic context |
| `Pipeline.CookieShapeMismatchIsLast` | main.go:121-178 | the structural cookie check fails the run if and only if every earlier check passed, the structural body check included, and the matcher rejects the captured cookies |
| `Pipeline.CookiesCapturedAfterShapeCheck` | main.go:159-178 | Cookies is rebuilt from the response (empty without one) only once the checks up to the structural body check have passed, so a cookie-shape failure implies the body-shape check passed; an earlier failure leaves Cookies unchanged |
| `Pipeline.CookiesWrittenOnlyAfterChecks` | main.go:121-172 | a run that changed Cookies got past the status, exact-body, substring and structural body checks |
| `Pipeline.RespondPassesIff` | main.go:121-180 | after dispatch, a run passes if and only if every configured check passes |
| `Pipeline.ExecuteWritesOnlyCapturedFields` | main.go:66-181 | a run writes only URL (and only when it was empty), Response and Cookies |
| `Pipeline.HealthCheckPasses` | main.go:66-181 | GET http://host/health expecting 200, against a server that answers 200 with an empty body only at that URL, passes |
| `Pipeline.HealthCheckThroughGetURL` | main.go:73-130 | the same check given as Path "/health" and GetURL: the first run dispatches to "" and fails with a nil response, but stores the resolved URL, so a second run of the same test passes |
| `Pipeline.SecondEntryMissingFailsRun` | main.go:66-149 | a run with BodyShouldHave ["foo", "bar"] against a 200 response with body "foo" fails naming index 1 and "bar", showing "foo" |
| `Pipeline.NotFoundIsStatusMismatch` | main.go:126-128 | expecting 200 and getting 404 with a mismatching body reports the status mismatch, with context |
| `Pipeline.ShapeMismatchReportsContext` | main.go:159-164 | a body shape rejected by the matcher fails with the matcher's error wrapped in the URL, method and payload context |
| `Pipeline.RefusedConnectionWithNilResponsePasses` | main.go:109-130 | NilResponse with a refused connection and no other expectation passes |
| `RouteTests.RouteTest.Run` | main.go:66-181 | running a test returns the outcome Execute gives and leaves the fields as Execute leaves them |
| `RouteTests.RouteTest.PrepareRequest` | main.go:67-108 | the steps before dispatch on the object agree with Prepare: the aborting step, or the parameters to dispatch, and the URL stored on the test |
| `RouteTests.RouteTest.Check` | main.go:115-180 | the checks after dispatch on the object agree with Respond, including when Cookies is written |
| `RouteTests.RouteTest.CaptureCookies` | main.go:166-178 | Cookies is replaced by the captured map and then checked against ExpectedCookies |
| `RouteTests.RouteTest.Apply` | main.go:183-220 | Apply returns the same sequence, leaves the template unchanged, and leaves each listed test (aliased or repeated entries included) as Inherit of its old value |
| `RouteTests.RouteTest.FillDefaults` | main.go:185-217 | one loop iteration of Apply: the target becomes Inherit of the template and its old value |
| `Batch.OnlyMarked` | main.go:43-48 | the filtered list holds exactly the Only-flagged tests of the batch and is no longer than it |
| `Batch.OnlyPositions` | main.go:43-48 | the positions of the Only-flagged tests, strictly increasing |
| `Batch.OnlyMarkedKeepsOrder` | main.go:43-48 | the k-th kept test is the test at the k-th flagged position, so the original relative order is preserved |
| `Batch.HasOnlyIffMarked` | main.go:44-53 | the filter applies exactly when at least one test is kept |
| `Batch.Excluded` | main.go:49-53 | a count is reported exactly when some test is flagged Only; it is the number of tests the selection leaves out and is smaller than the batch |
| `Batch.Selection` | main.go:49-53 | the tests to run all come from the batch |
| `Batch.SelectTests` | main.go:41-53 | the filter loop returns the Only-flagged tests when there are any and the whole batch otherwise, and reports len(tests) - len(toRun) as the excluded count only when it filtered |
| `Batch.NameLabel` | main.go:56-59 | the label of a failing test is empty for an unnamed test and a space followed by the name otherwise |
| `Batch.StateAfter` | main.go:54-62 | the runs made so far change descriptors only of tests already in the batch |
| `Batch.FirstFailure` | main.go:54-62 | the first run that fails, with every earlier run passing, or none exactly when every run passes |
| `Batch.RunningKeepsNames` | main.go:56-59 | a run never renames its test, whatever the collaborators of its position, so the label may be read after the run as the source does |
| `Batch.RunBatch` | main.go:54-63 | the batch keeps the same tests in its state, and a reported failure is at a position of the run list whose run fails |
| `Batch.BatchFailsFast` | main.go:54-63 | the batch passes if and only if every selected run passes; otherwise it reports the first failing position, that run's cause and the test's name label, and no later test has run |
| `Batch.StateAfterOthers` | main.go:54-62 | runs of other objects leave a test's descriptor alone |
| `Batch.DistinctRunsStartFresh` | main.go:54-62 | when no object appears twice, every run starts from the descriptor as it was before the batch |
| `Batch.RepeatedTestSeesEarlierRun` | main.go:54-62 | an object listed twice in a row starts its second run from what its first run left |
| `Batch.BatchStopsAt` | main.go:55-61 | the first failing run decides the batch: its position, label and cause |
| `Batch.RunTests` | main.go:40-64 | the batch runner reports the excluded count of the Only filter, returns the outcome RunBatch gives for the selected tests with the `k`-th run made against `envs(k)`, and leaves every test as RunBatch says |
| `Batch.RunSelected` | main.go:54-63 | the run loop over the selected tests agrees with RunBatch, stopping at the first failure |

## Left out

- The network transport and the JSON decoding of `request.Request` (main.go:109) are an
  external library. They are the `dispatch` field of `Env`: for given parameters,
  payload and decode destination it returns a response (or none), the raw body, the
  decoded map and an error.
- The structural matcher `expectm.CheckJSONString` / `expectm.CheckJSON`
  (main.go:160, 174) is a foreign library. It is the pair of arbitrary functions
  `checkJSONString` / `checkJSON` of `Env`, answering `None` on a match.
- `url.Values` encoding and `fmt.Sprintf("%v", v)` of the query values (main.go:97-100)
  are library formatting. They are the arbitrary function `encodeQuery`; only the
  `"?"` concatenation is modelled.
- The diagnostic printing (main.go:52, 111, 123) is output only. The excluded count is
  returned instead of printed. The dispatch error that is printed when
  `ExpectedStatus < 300` is ignored in every case.
- The exact text of the errors (`testInfo`, `errs.Errorf`, `errs.Wrap`, main.go:115-176)
  is string formatting. Each failure is a constructor of `Failure` carrying the
  values that the message shows.
- Batch.RunTests: the batch error is the structured `BatchFailed(index, label, cause)`
  rather than the formatted text `"[i]<label> <message>"`.
- `HideResponseBody` (main.go:138-142) only changes the body shown in the substring
  failures. It is kept as that shown body, not as printed text.
- The bodies of the hooks `Preflight`, `ModifyParams` and `GetURL` are caller-supplied
  closures. A test holds a `HookId` handle for each, and `Env` gives its outcome.
  ModifyParams may rewrite the parameters arbitrarily, URL and method included.
- `Body` and the values of `Query` and `Response` are Go `interface{}` values,
  modelled as strings that are only passed around and compared.
- A nil `*RouteTest` in the batch panics at main.go:44. A nil target of Apply panics
  at main.go:185. A nil template panics as soon as some target has an unset covered
  field (main.go:186-216). `RouteTest` is a non-nullable class type here, so none of
  these cases can arise.
- `request.Request` receives `&params` (main.go:109) and the diagnostic context reads
  `params.Url` and `params.Method` after the call (main.go:119). `Respond` builds the
  context from the parameters as they were before dispatch, so it assumes the
  executor does not rewrite them.
- Go strings are byte strings and `strings.Contains` compares bytes. `Contains`
  compares `char`s, so a body that is not valid UTF-8 is not representable.
- Go's pointer and slice identity is modelled by object identity of `RouteTest`
  and by `Apply` returning the very sequence it was given. The aliasing of one
  slice's backing array with another is not modelled.

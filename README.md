# GitHub webhook gate and push dispatcher, modelled in Dafny

This project models the part of the Jenkins GitHub plugin that receives a
webhook delivery and turns a push into build triggers:

- **Request gate** (`RequirePostWithGHHookPayload.Processor`, module
  `RequestGate`): a total function from the HTTP method, the presence of the
  URL-validation header and the web method's argument array to an outcome:
  the target is invoked with the arguments unchanged, the self-test answer is
  given, or an error response (405 or 400 with the source's messages) ends the
  request. The guards run in the fixed order method, self-test, arity, event
  type, payload. `FirstFailureDecides` proves that the gate agrees with an
  independent reading: "evaluate this list of guards and answer with the
  first that fails".
- **Repository URL shape** (module `RepositoryUrl`): the pattern
  `https?://([^/]+)/([^/]+)/([^/]+)` applied with `matches()`, i.e. to the
  whole string. The match and its groups round-trip with the URL they
  describe. A trailing slash, a fourth segment or another scheme is
  rejected. The pattern rejects a trailing slash. It accepts a `.git`
  suffix as part of the name group (`GitSuffixKeptInName`). Whether the
  repository identity then drops the suffix is up to
  `GitHubRepositoryName.create`, which the model takes as a parameter.
- **Push subscriber** (`DefaultPushGHEventSubscriber`, module
  `PushSubscriber`): `checkCommitPaths` is a method with the source's three
  nested loops and early exit. It is proved equal to an existential
  specification: some modified, added or removed path of some commit starts
  with the path. `onEvent` is a method with the source's job loop and
  listener loop. It returns the trigger calls and the listener notifications
  it makes, and is proved equal to specification functions. Lemmas about
  those functions say that each job that should be poked is poked exactly
  once, in registry order, with the pusher and `sha1 = after`, and that every
  listener is told exactly once.
- **Project property** (`GithubProjectProperty`, module `ProjectProperty`):
  an immutable record. The getters return the constructor's arguments,
  `getJobActions` returns one link action exactly when a project URL is set,
  and `newInstance` applies its null rules.

The payload is taken as already parsed (`PushPayload`). The job registry is a
sequence of `Job` records and the listeners are counted by a number.
`GitHubRepositoryName.create` and `GithubUrl.baseUrl` are passed in as
functions.

**Reading of `getRepositoryPath() == ""`.** At
`DefaultPushGHEventSubscriber.java:122` this compares references, not
contents. The model follows the code as written. A `JavaString` is null, the
shared `""` literal object, or some other string object. Only the shared
literal skips the path filter. Whether an empty path made at run time (for
instance by binding a submitted form) is that shared object depends on the
code and the JDK that made it, so the model takes it as an input and proves
both cases. Any other empty string object goes to `checkCommitPaths`. There the
empty prefix matches every path, so such a job is poked only when the push
changes at least one path (`EmptyPathReading`). A path of spaces is not
treated specially; it is matched as a prefix like any other path.

## Model

| member | source | states |
|---|---|---|
| `RequestGate.Invoke` | src/main/java/org/jenkinsci/plugins/github/webhook/RequirePostWithGHHookPayload.java:50-58 | The target is invoked iff the method is POST, no validation header is present, there are exactly two arguments, one of them is an event and the first string argument is non-blank; it is then invoked with the arguments unchanged. The self-test answer is given iff the method is POST and the header is present. |
| `RequestGate.FirstFailureDecides` | src/main/java/org/jenkinsci/plugins/github/webhook/RequirePostWithGHHookPayload.java:53-57 | The outcome is the response of the first failing guard in the order method, self-test, arity, event, payload; when none fails, the target is invoked with the original arguments. |
| `RequestGate.ShouldBePostMethod` | src/main/java/org/jenkinsci/plugins/github/webhook/RequirePostWithGHHookPayload.java:67-71 | The request passes iff its method is exactly "POST"; otherwise it is stopped with 405 "Method POST required". |
| `RequestGate.ReturnsInstanceIdentityIfLocalUrlTest` | src/main/java/org/jenkinsci/plugins/github/webhook/RequirePostWithGHHookPayload.java:76-89 | The request is stopped with the self-test answer iff the validation header is present, whatever its value. |
| `RequestGate.ShouldContainParseablePayload` | src/main/java/org/jenkinsci/plugins/github/webhook/RequirePostWithGHHookPayload.java:99-113 | The arguments pass iff there are two, one is an event and the first string argument is non-blank; otherwise a 400 response results. |
| `RequestGate.IsTrue` | src/main/java/org/jenkinsci/plugins/github/webhook/RequirePostWithGHHookPayload.java:123-127 | Stops with 400 and the given message exactly when the condition is false. |
| `RequestGate.FirstEvent` | src/main/java/org/jenkinsci/plugins/github/webhook/RequirePostWithGHHookPayload.java:103-108 | Finds an event iff some argument is an event, and returns the first such argument. |
| `RequestGate.FirstString` | src/main/java/org/jenkinsci/plugins/github/webhook/RequirePostWithGHHookPayload.java:109-112 | Finds a string iff some argument is a (non-null) string, and returns the first such argument. |
| `RequestGate.HasPayload` | src/main/java/org/jenkinsci/plugins/github/webhook/RequirePostWithGHHookPayload.java:110 | Holds iff there is a string argument and the first one is not blank; a missing string argument counts as `""`, which is blank. |
| `RequestGate.NonPostIsRefused` | src/main/java/org/jenkinsci/plugins/github/webhook/RequirePostWithGHHookPayload.java:67-71 | A non-POST request gets 405 "Method POST required" whatever its headers and arguments, and the target is not invoked. |
| `RequestGate.SelfTestIgnoresArguments` | src/main/java/org/jenkinsci/plugins/github/webhook/RequirePostWithGHHookPayload.java:76-89 | A POST with the validation header gets the self-test answer even when its arguments are malformed. |
| `RequestGate.WrongArityIsBadRequest` | src/main/java/org/jenkinsci/plugins/github/webhook/RequirePostWithGHHookPayload.java:100-101 | Past the first two guards, an argument count other than two gives 400 with the arity message. |
| `RequestGate.MissingEventIsBadRequest` | src/main/java/org/jenkinsci/plugins/github/webhook/RequirePostWithGHHookPayload.java:105-108 | Two arguments without an event give 400 "Hook should contain event type". |
| `RequestGate.BlankPayloadIsBadRequest` | src/main/java/org/jenkinsci/plugins/github/webhook/RequirePostWithGHHookPayload.java:109-112 | Two arguments with an event but no string argument, or a blank first one (empty or whitespace only), give 400 "Hook should contain payload". |
| `ProjectProperty.Create` | src/main/java/com/coravy/hudson/plugins/github/GithubProjectProperty.java:53-61 | The getters return the constructor's repository path (null and empty included) and its three flags unchanged; the project URL is the base URL of the argument. |
| `ProjectProperty.GithubProjectProperty.GetJobActions` | src/main/java/com/coravy/hudson/plugins/github/GithubProjectProperty.java:87-92 | Exactly one action, a link to this property, when the project URL is non-null; none otherwise. |
| `ProjectProperty.NewInstance` | src/main/java/com/coravy/hudson/plugins/github/GithubProjectProperty.java:111-123 | The result is null when binding failed or the bound project URL is null; otherwise it is the bound property itself. |
| `ProjectProperty.AcceptedPropertyHasLink` | src/main/java/com/coravy/hudson/plugins/github/GithubProjectProperty.java:118-122 | A property that `newInstance` returns shows exactly one link action, to itself. |
| `ProjectProperty.RefusedPropertyHasNoLink` | src/main/java/com/coravy/hudson/plugins/github/GithubProjectProperty.java:118-122 | `newInstance` refuses a bound property exactly when that property would show no action. |
| `RepositoryUrl.Match` | src/main/java/org/jenkinsci/plugins/github/webhook/subscriber/DefaultPushGHEventSubscriber.java:42 | The full match of the pattern together with its groups; a match's groups are non-empty and slash-free. Its meaning in both directions is given by `MatchFormat` and `FormatMatch`. |
| `RepositoryUrl.MatchFormat` | src/main/java/org/jenkinsci/plugins/github/webhook/subscriber/DefaultPushGHEventSubscriber.java:42 | Every `http(s)://host/owner/name` with non-empty, slash-free pieces matches, and the groups are those pieces. |
| `RepositoryUrl.FormatMatch` | src/main/java/org/jenkinsci/plugins/github/webhook/subscriber/DefaultPushGHEventSubscriber.java:99-100 | Every URL that matches is exactly the pattern filled with its groups, which are non-empty and slash-free. |
| `RepositoryUrl.ExtraSegmentRejected` | src/main/java/org/jenkinsci/plugins/github/webhook/subscriber/DefaultPushGHEventSubscriber.java:99-100 | A matching URL followed by a slash and anything (a trailing slash, a fourth segment) does not match. |
| `RepositoryUrl.OtherSchemeRejected` | src/main/java/org/jenkinsci/plugins/github/webhook/subscriber/DefaultPushGHEventSubscriber.java:42 | A URL that starts with neither `http://` nor `https://` does not match. |
| `RepositoryUrl.GitHubUrlMatches` | src/main/java/org/jenkinsci/plugins/github/webhook/subscriber/DefaultPushGHEventSubscriber.java:90-91 | `https://github.com/acme/widgets` matches with groups `github.com`, `acme`, `widgets`. |
| `RepositoryUrl.GitSuffixKeptInName` | src/main/java/org/jenkinsci/plugins/github/webhook/subscriber/DefaultPushGHEventSubscriber.java:42 | `https://github.com/acme/widgets.git` matches, and the name group keeps the `.git` suffix: the pattern does not strip it. |
| `RepositoryUrl.SchemelessUrlRejected` | src/main/java/org/jenkinsci/plugins/github/webhook/subscriber/DefaultPushGHEventSubscriber.java:147-149 | `not-a-url` does not match. |
| `PushSubscriber.Events` | src/main/java/org/jenkinsci/plugins/github/webhook/subscriber/DefaultPushGHEventSubscriber.java:60-62 | The subscriber's event set contains push and nothing else. |
| `PushSubscriber.CheckCommitPaths` | src/main/java/org/jenkinsci/plugins/github/webhook/subscriber/DefaultPushGHEventSubscriber.java:64-79 | Returns true iff some modified, added or removed path of some commit starts with the given path. |
| `PushSubscriber.NoCommitsNoMatch` | src/main/java/org/jenkinsci/plugins/github/webhook/subscriber/DefaultPushGHEventSubscriber.java:64-79 | The path filter fails on an empty commit list. |
| `PushSubscriber.EmptyPrefixMatchesAnyChange` | src/main/java/org/jenkinsci/plugins/github/webhook/subscriber/DefaultPushGHEventSubscriber.java:71 | With the empty path, the filter passes iff the push changes at least one path. |
| `PushSubscriber.PrefixIsNotSegmentAware` | src/main/java/org/jenkinsci/plugins/github/webhook/subscriber/DefaultPushGHEventSubscriber.java:71 | The prefix test is on raw characters: `lib` matches a change to `libfoo/x`. |
| `PushSubscriber.PathFilterPasses` | src/main/java/org/jenkinsci/plugins/github/webhook/subscriber/DefaultPushGHEventSubscriber.java:119-125 | No property or a null path always passes. Its meaning is further given by `UnchangedPushPassesOnlyUnfiltered`, `EmptyPathReading`, `WholeRepositoryJob` and `TriggerCallsExact`. |
| `PushSubscriber.UnchangedPushPassesOnlyUnfiltered` | src/main/java/org/jenkinsci/plugins/github/webhook/subscriber/DefaultPushGHEventSubscriber.java:119-125 | On a push that changes no path, the filter passes iff the job has no property, a null path or the shared `""` literal as its path. |
| `PushSubscriber.PokedExact` | src/main/java/org/jenkinsci/plugins/github/webhook/subscriber/DefaultPushGHEventSubscriber.java:113-128 | For any per-job decision, the job loop calls exactly the selected jobs, each once, in registry order, with the pusher and the parameter list. |
| `PushSubscriber.TriggerCallsExact` | src/main/java/org/jenkinsci/plugins/github/webhook/subscriber/DefaultPushGHEventSubscriber.java:113-128 | A job is poked iff it has a push trigger, is associated with the changed repository and passes the path filter. Each such job is poked exactly once, in registry order, with the pusher and the parameter list. |
| `PushSubscriber.IsApplicable` | src/main/java/org/jenkinsci/plugins/github/webhook/subscriber/DefaultPushGHEventSubscriber.java:52-54 | The subscriber applies to a job iff it has a push trigger; a job it does not apply to is never to be poked, whatever the repository and the commits. What this means for the job loop is given by `NotApplicableNeverTriggered`. |
| `PushSubscriber.NotApplicableNeverTriggered` | src/main/java/org/jenkinsci/plugins/github/webhook/subscriber/DefaultPushGHEventSubscriber.java:114-115 | A job without a push trigger (one the subscriber is not applicable to) is never poked. |
| `PushSubscriber.NotificationsExact` | src/main/java/org/jenkinsci/plugins/github/webhook/subscriber/DefaultPushGHEventSubscriber.java:142-145 | Every listener is told exactly once, in order, with the pusher and the changed repository. |
| `PushSubscriber.EmptyPathReading` | src/main/java/org/jenkinsci/plugins/github/webhook/subscriber/DefaultPushGHEventSubscriber.java:119-125 | An empty path that is the shared `""` literal always passes; any other empty path passes iff the push changes some path. |
| `PushSubscriber.WholeRepositoryJob` | src/main/java/org/jenkinsci/plugins/github/webhook/subscriber/DefaultPushGHEventSubscriber.java:119-123 | A job with a push trigger for the repository and no property, or a null path, is poked whatever the changed paths. |
| `PushSubscriber.MonorepoTriggerCalls` | src/main/java/org/jenkinsci/plugins/github/webhook/subscriber/DefaultPushGHEventSubscriber.java:117-128 | The job loop on a push changing only `lib/a.go` pokes a job with path `lib` once, with `alice` and `sha1 = deadbeef`, and does not poke a job with path `docs`. |
| `PushSubscriber.MonorepoScenario` | src/main/java/org/jenkinsci/plugins/github/webhook/subscriber/DefaultPushGHEventSubscriber.java:88-150 | The whole delivery of a push by `alice` to `https://github.com/acme/widgets` changing `lib/a.go`, with one job and one listener: a job with path `lib` is poked once with `alice` and `sha1 = deadbeef`; a job with path `docs` is not; the listener is told once in both cases. |
| `PushSubscriber.OnEvent` | src/main/java/org/jenkinsci/plugins/github/webhook/subscriber/DefaultPushGHEventSubscriber.java:88-150 | A URL that does not match, or whose name cannot be created, leads to no trigger call and no notification. Otherwise the calls are exactly the job loop's specification (with `sha1 = after`) and the notifications are one per listener. |

## Left out

- JSON parsing (`JSONObject.fromObject`, `getJSONObject`, `getString`, `getJSONArray`) is not modelled. The payload arrives parsed, so the exceptions thrown for missing keys are not modelled. This includes `commits`, which the source reads only once a job matches.
- `ACL.impersonate(ACL.SYSTEM, …)` is not modelled; the job loop runs over the given job sequence.
- `Jenkins.getInstance().getAllItems` and `getExtensionList` are global registries. They become the `jobs` sequence and the `listeners` count.
- `GitHubRepositoryName.create` and `GithubUrl.baseUrl` are passed in as functions. `parseAssociatedNames` and `triggerFrom` become the `associatedNames` and `hasPushTrigger` fields of a job. None of them is part of this model.
- PushSubscriber.OnEvent: assumes every `onPost` and `onPushRepositoryChanged` call returns normally. In the source an exception from one of them would end the loop, and that is not modelled.
- The `event` argument of `onEvent` is not used by the source, so it is not a parameter of `OnEvent`.
- The self-test response body is not modelled: the instance's public key, its Base64 encoding and `rsp.setHeader`. The model keeps only the `SelfTest` outcome.
- Stapler and servlet mechanics are not modelled: `target.invoke`, the `InvocationTargetException` wrapping and `req.bindJSON`. `NewInstance` takes what binding produced as its input.
- `DescriptorImpl.load()`, `DescriptorImpl.isApplicable(Class)`, `getDisplayName` and the contents of `GithubLinkAction` are not modelled, and neither is logging.
- `GHEvent` lists a subset of the library's event kinds. Only `PUSH` matters to the code modelled.
- `IsWhitespace` follows `Character.isWhitespace` on current JDKs. U+180E, which older Unicode tables treated as a space separator, is not whitespace here.

# Event context of actions-toolkit, modelled in Dafny

An automation run is triggered by a webhook event. Its `Context` object holds
the event's JSON body as a public, overwritable `payload` and derives two
coordinate mappings from it:

- `repo(overrides)`: `owner` from `payload.repository.owner.login` and `repo`
  from `payload.repository.name`, with the caller's overrides laid over them
  key by key. It fails with an error saying `context.repo() is not supported`
  when the payload has no `repository`.
- `issue(overrides)`: the same pair plus `number`, taken from
  `payload.issue.number`, else `payload.pull_request.number`, else the
  top-level `payload.number`. The same overlay follows, and `repo()`'s failure
  carries over.

The implementation file, src/context.ts, is not part of this model. The
behaviour modelled here is the one its test suite, tests/context.test.ts,
fixes, completed by the component's documented policy: the presence of
`repository` is required, the presence of the fields below it is not.

Files:

- `wrappers.dfy` (module `Wrappers`): `Option` and `Result`.
- `json.dfy` (module `Json`): the payload as a JSON `Value`. It also holds
  `Get`, the permissive nested field lookup (a missing field anywhere on the
  path means "absent", never an error), and `FirstPresent`, a first-match
  fallback chain.
- `context.dfy` (module `EventContext`): the derivations as functions of the
  payload and the override map (`RepoCoordinates`, `IssueNumber`,
  `IssueCoordinates`, `Overlay`), the `Context` class whose methods wrap them,
  and the general properties as lemmas.
- `context_cases.dfy` (module `ContextCases`): each expectation of the test
  suite as a lemma on the payloads it uses, and `Session`, a client method that
  takes one `Context` object through them, overwriting `payload` in place.

A field read that finds nothing yields the JSON-less value `Undefined`. The
key still appears in the result, as it does in the JavaScript object
`{ owner: undefined, ... }`.

## Model

| member | source | states |
|---|---|---|
| Json.Get | tests/context.test.ts:72-87 | a lookup by the empty path finds the value itself; a one-field lookup finds something exactly when the value is an object holding that field, and then finds that field's value; a lookup through a missing field or a non-object finds nothing and never fails (longer paths compose, see `Json.GetAppend`) |
| Json.GetAppend | tests/context.test.ts:72-87 | for every value and paths, looking up `prefix + rest` equals looking up `prefix` and then `rest` from what it found, and finds nothing when `prefix` finds nothing |
| Json.AbsentBelowAbsent | tests/context.test.ts:72-87 | an absent intermediate field makes every field below it absent, rather than an error |
| Json.ReadAppend | tests/context.test.ts:72-87 | a property read along `prefix + rest` is the read of `rest` from the object `prefix` leads to, and `Undefined` when `prefix` leads nowhere |
| Json.FirstPresent | tests/context.test.ts:72-87 | the fallback chain finds nothing exactly when every candidate is absent; otherwise its result is the first present candidate, with every candidate before it absent |
| EventContext.Overlay | tests/context.test.ts:33-43 | the merged keys are the derived keys plus the override keys; an override key gets the override's value; every other derived key keeps its derived value |
| EventContext.RepoCoordinates | tests/context.test.ts:28-52 | `repo(overrides)` fails exactly when the payload has no `repository`, whatever the overrides; the error message contains "context.repo() is not supported"; on success the keys are exactly `owner`, `repo` and the override keys, overrides win, and a non-overridden `owner`/`repo` is `repository.owner.login`/`repository.name` |
| EventContext.IssueNumber | tests/context.test.ts:72-87 | the number is `issue.number` if present, else `pull_request.number` if present, else the top-level `number` if present, else undefined |
| EventContext.IssueCoordinates | tests/context.test.ts:55-87 | `issue(overrides)` fails exactly when `repo()` does, with the same error; on success the keys are exactly `owner`, `repo`, `number` and the override keys, overrides win, non-overridden `owner`/`repo` equal `repo()`'s and a non-overridden `number` is the precedence number |
| EventContext.RepoFromRepository | tests/context.test.ts:29-31 | with a `repository` and no overrides, `repo()` is exactly `{owner: repository.owner.login, repo: repository.name}` and nothing else |
| EventContext.RepoAdditiveMerge | tests/context.test.ts:33-37 | overrides that avoid `owner` and `repo` only add keys: the derived keys and the override keys are disjoint, and every derived and every override value appears unchanged |
| EventContext.RepoOwnerOverride | tests/context.test.ts:39-43 | an `owner` override replaces the derived owner, `repo` keeps its derived value, and no key is added beyond the override keys |
| EventContext.MissingRepositoryUnsupported | tests/context.test.ts:45-52 | without a `repository`, `repo(overrides)` fails with the unsupported-context error whose message contains "context.repo() is not supported", and `issue(overrides)` fails with that same error |
| EventContext.OverridesAreOverlaid | tests/context.test.ts:60-70 | each derivation with overrides is the derivation without them overlaid key by key, so `number` alone can be overridden while `owner` and `repo` stay derived |
| EventContext.IssueFromRepository | tests/context.test.ts:56-58 | with a `repository` and no overrides, `issue()` is exactly `{owner, repo, number}` with `owner` and `repo` read from the repository object |
| EventContext.NumberFromIssue | tests/context.test.ts:56-58 | a payload whose `issue` object has a `number` takes its number from it |
| EventContext.NumberFromPullRequest | tests/context.test.ts:72-80 | a payload with no `issue` whose `pull_request` has a `number` takes that number, whatever the top-level `number` holds |
| EventContext.NumberFromTopLevel | tests/context.test.ts:82-87 | a payload with neither `issue` nor `pull_request` takes the top-level `number` (undefined when that is absent too) |
| EventContext.Context.constructor | tests/context.test.ts:15-25 | with no event file the payload is the empty object; otherwise it is the parsed event |
| EventContext.Context.Repo | tests/context.test.ts:28-52 | the method returns `repo(overrides)` of the current payload and changes nothing |
| EventContext.Context.Issue | tests/context.test.ts:55-87 | the method returns `issue(overrides)` of the current payload and changes nothing |
| ContextCases.IssueEventRepo | tests/context.test.ts:29-31 | the issue event gives `{owner: "JasonEtco", repo: "test"}` |
| ContextCases.IssueEventRepoMerge | tests/context.test.ts:33-37 | `repo({foo: 1, bar: 2})` gives `{bar: 2, foo: 1, owner: "JasonEtco", repo: "test"}` |
| ContextCases.IssueEventRepoOverride | tests/context.test.ts:39-43 | `repo({owner: "muahaha"})` gives `{owner: "muahaha", repo: "test"}` |
| ContextCases.EmptyPayloadUnsupported | tests/context.test.ts:45-52 | on the empty payload `repo()` fails with a message containing "context.repo() is not supported", and `issue()` fails too |
| ContextCases.IssueEventIssue | tests/context.test.ts:56-58 | the issue event gives `{owner: "JasonEtco", repo: "test", number: 1}` |
| ContextCases.IssueEventIssueMerge | tests/context.test.ts:60-64 | `issue({foo: 1, bar: 2})` adds `foo` and `bar` to the issue coordinates |
| ContextCases.IssueEventIssueOverride | tests/context.test.ts:66-70 | `issue({owner: "muahaha", number: 5})` gives `{number: 5, owner: "muahaha", repo: "test"}` |
| ContextCases.PullRequestEventIssue | tests/context.test.ts:72-80 | a pull-request event numbered 2 gives `{number: 2, owner: "JasonEtco", repo: "test"}` |
| ContextCases.TopLevelNumberEventIssue | tests/context.test.ts:82-87 | an event with top-level `number: 2` gives `{number: 2, owner: "JasonEtco", repo: "test"}` |

## Left out

- Reading the `GITHUB_EVENT_PATH` environment variable and loading and parsing the event file (tests/context.test.ts:17-24): the constructor takes the parsed payload as an `Option`, `None` standing for an absent or falsey variable.
- The snapshot comparison of the default payload (tests/context.test.ts:12): it depends on a fixture file. `ContextCases.IssueEvent` holds only the fields the context reads.
- JSON numbers are modelled as integers, not as floating-point values.
- A `repository` field that is present but holds `null` (or another falsey value) counts as present here: the model fails only when the field is missing.
- A missing field below `repository` (say `owner` or `login`) yields `Undefined` rather than a property-access error, following the permissive policy above.
- The number precedence picks the first number that is present. An implementation that falls back on the presence of the `issue` or `pull_request` object, rather than of its `number`, agrees with it on every tested payload but not on an `issue` object without a `number`.
- The order of keys in the returned objects is not modelled: the results are maps, and the tests compare them without regard to order.
- The error's full message text is a choice of this model ("context.repo() is not supported for this webhook event"); the tests fix only that it contains `context.repo() is not supported`.
- Concurrent writes to `payload` are not modelled; the component is single-threaded.

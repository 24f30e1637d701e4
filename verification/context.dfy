/** The event context: the webhook payload an automation runs on, and the two
    derivations that turn it into repository and issue coordinates, with the
    caller's overrides laid on top. */
module EventContext {
  import opened Wrappers
  import opened Json

  /** A coordinates mapping as returned to the caller: `owner`, `repo`
      (and `number`), plus whatever extra keys the overrides bring. */
  type Coordinates = map<string, Value>

  // The only payload paths the context ever reads.
  const RepositoryPath: seq<string> := ["repository"]
  const OwnerLoginPath: seq<string> := ["repository", "owner", "login"]
  const RepoNamePath: seq<string> := ["repository", "name"]
  const IssueNumberPath: seq<string> := ["issue", "number"]
  const PullRequestNumberPath: seq<string> := ["pull_request", "number"]
  const TopLevelNumberPath: seq<string> := ["number"]

  /** The one failure: the event carries no repository, so repository
      coordinates cannot be derived from it. */
  datatype Error = UnsupportedContext(message: string)

  const RepoUnsupportedMessage: string := "context.repo() is not supported for this webhook event"

  /** `part` occurs somewhere in `s`. */
  predicate Contains(s: string, part: string) {
    exists i :: 0 <= i <= |s| && part <= s[i..]
  }

  /** Lays `overrides` over `base` key by key: an override replaces the value
      of a key it shares with `base`, and brings its other keys in. */
  function Overlay(base: Coordinates, overrides: Coordinates): (r: Coordinates)
    ensures r.Keys == base.Keys + overrides.Keys
    ensures forall k :: k in overrides ==> r[k] == overrides[k]
    ensures forall k :: k in base && k !in overrides ==> r[k] == base[k]
  {
    base + overrides
  }

  /** `repo(overrides)`: `owner` from `repository.owner.login` and `repo` from
      `repository.name`, overlaid with `overrides`; fails exactly when the
      payload has no `repository`, whatever the overrides hold. */
  function RepoCoordinates(payload: Value, overrides: Coordinates := map[]): (r: Result<Coordinates, Error>)
    ensures r.Failure? <==> Get(payload, RepositoryPath).None?
    ensures r.Failure? ==> Contains(r.error.message, "context.repo() is not supported")
    ensures r.Success? ==> r.value.Keys == {"owner", "repo"} + overrides.Keys
    ensures r.Success? ==> forall k :: k in overrides ==> r.value[k] == overrides[k]
    ensures r.Success? && "owner" !in overrides ==> r.value["owner"] == Read(payload, OwnerLoginPath)
    ensures r.Success? && "repo" !in overrides ==> r.value["repo"] == Read(payload, RepoNamePath)
  {
    if Get(payload, RepositoryPath).None? then
      assert "context.repo() is not supported" <= RepoUnsupportedMessage[0..];
      Failure(UnsupportedContext(RepoUnsupportedMessage))
    else
      Success(Overlay(map["owner" := Read(payload, OwnerLoginPath), "repo" := Read(payload, RepoNamePath)], overrides))
  }

  /** The issue or pull-request number: the first of `issue.number`,
      `pull_request.number` and the top-level `number` that is present, and
      `Undefined` when none is. */
  function IssueNumber(payload: Value): (n: Value)
    ensures n ==
      if Get(payload, IssueNumberPath).Some? then Get(payload, IssueNumberPath).value
      else if Get(payload, PullRequestNumberPath).Some? then Get(payload, PullRequestNumberPath).value
      else if Get(payload, TopLevelNumberPath).Some? then Get(payload, TopLevelNumberPath).value
      else Undefined
  {
    var candidates := [Get(payload, IssueNumberPath), Get(payload, PullRequestNumberPath), Get(payload, TopLevelNumberPath)];
    assert candidates[1..] == [candidates[1], candidates[2]];
    assert candidates[1..][1..] == [candidates[2]];
    FirstPresent(candidates).GetOr(Undefined)
  }

  /** `issue(overrides)`: the repository coordinates of `repo()` (and its
      failure), with `number` added, overlaid with `overrides`. */
  function IssueCoordinates(payload: Value, overrides: Coordinates := map[]): (r: Result<Coordinates, Error>)
    ensures r.Failure? <==> Get(payload, RepositoryPath).None?
    ensures r.Failure? ==> r == RepoCoordinates(payload)
    ensures r.Success? ==> r.value.Keys == {"owner", "repo", "number"} + overrides.Keys
    ensures r.Success? ==> forall k :: k in overrides ==> r.value[k] == overrides[k]
    ensures r.Success? ==> forall k :: k in {"owner", "repo"} && k !in overrides ==>
      r.value[k] == RepoCoordinates(payload).value[k]
    ensures r.Success? && "number" !in overrides ==> r.value["number"] == IssueNumber(payload)
  {
    match RepoCoordinates(payload)
    case Failure(e) => Failure(e)
    case Success(base) => Success(Overlay(base["number" := IssueNumber(payload)], overrides))
  }

  /** With a `repository` and no overrides, `repo()` is exactly the pair read
      from that repository object: `owner.login` and `name`. */
  lemma RepoFromRepository(payload: Value, repository: Value)
    requires Get(payload, RepositoryPath) == Some(repository)
    ensures RepoCoordinates(payload) ==
      Success(map["owner" := Read(repository, ["owner", "login"]), "repo" := Read(repository, ["name"])])
  {
    assert OwnerLoginPath == RepositoryPath + ["owner", "login"];
    assert RepoNamePath == RepositoryPath + ["name"];
    ReadAppend(payload, RepositoryPath, ["owner", "login"]);
    ReadAppend(payload, RepositoryPath, ["name"]);
    var pair := map["owner" := Read(repository, ["owner", "login"]), "repo" := Read(repository, ["name"])];
    assert Read(payload, OwnerLoginPath) == pair["owner"];
    assert Read(payload, RepoNamePath) == pair["repo"];
    assert Overlay(pair, map[]) == pair;
  }

  /** Overrides that avoid `owner` and `repo` only add keys: every derived
      value and every override value appears unchanged. */
  lemma RepoAdditiveMerge(payload: Value, overrides: Coordinates)
    requires Get(payload, RepositoryPath).Some?
    requires "owner" !in overrides && "repo" !in overrides
    ensures RepoCoordinates(payload, overrides).Success?
    ensures RepoCoordinates(payload).value.Keys !! overrides.Keys
    ensures RepoCoordinates(payload, overrides).value.Keys == RepoCoordinates(payload).value.Keys + overrides.Keys
    ensures forall k :: k in RepoCoordinates(payload).value ==>
      RepoCoordinates(payload, overrides).value[k] == RepoCoordinates(payload).value[k]
    ensures forall k :: k in overrides ==> RepoCoordinates(payload, overrides).value[k] == overrides[k]
  {
  }

  /** An `owner` override replaces the derived owner and leaves the derived
      `repo` as it was. */
  lemma RepoOwnerOverride(payload: Value, overrides: Coordinates)
    requires Get(payload, RepositoryPath).Some?
    requires "owner" in overrides && "repo" !in overrides
    ensures RepoCoordinates(payload, overrides).Success?
    ensures RepoCoordinates(payload, overrides).value.Keys == {"owner", "repo"} + overrides.Keys
    ensures RepoCoordinates(payload, overrides).value["owner"] == overrides["owner"]
    ensures RepoCoordinates(payload, overrides).value["repo"] == RepoCoordinates(payload).value["repo"]
  {
  }

  /** Without a `repository`, `repo()` and `issue()` both fail, whatever the
      overrides, with the same unsupported-context error. */
  lemma MissingRepositoryUnsupported(payload: Value, overrides: Coordinates)
    requires Get(payload, RepositoryPath).None?
    ensures RepoCoordinates(payload, overrides) == Failure(UnsupportedContext(RepoUnsupportedMessage))
    ensures IssueCoordinates(payload, overrides) == RepoCoordinates(payload, overrides)
    ensures Contains(RepoCoordinates(payload, overrides).error.message, "context.repo() is not supported")
  {
  }

  /** Overrides act key by key: each derivation with overrides is the
      derivation without them, overlaid. In particular `issue` can replace
      `number` alone and keep the derived `owner` and `repo`. */
  lemma OverridesAreOverlaid(payload: Value, overrides: Coordinates)
    ensures RepoCoordinates(payload, overrides).Success? ==>
      RepoCoordinates(payload, overrides).value == Overlay(RepoCoordinates(payload).value, overrides)
    ensures IssueCoordinates(payload, overrides).Success? ==>
      IssueCoordinates(payload, overrides).value == Overlay(IssueCoordinates(payload).value, overrides)
  {
  }

  /** With a `repository` and no overrides, `issue()` is exactly the
      `repo()` pair plus `number`. */
  lemma IssueFromRepository(payload: Value, repository: Value)
    requires Get(payload, RepositoryPath) == Some(repository)
    ensures IssueCoordinates(payload) ==
      Success(map["owner" := Read(repository, ["owner", "login"]), "repo" := Read(repository, ["name"]),
                  "number" := IssueNumber(payload)])
  {
    RepoFromRepository(payload, repository);
    var triple := RepoCoordinates(payload).value["number" := IssueNumber(payload)];
    assert Overlay(triple, map[]) == triple;
  }

  /** A payload with an `issue` object takes its number from it. */
  lemma NumberFromIssue(payload: Value, issue: Value)
    requires Get(payload, ["issue"]) == Some(issue)
    requires Get(issue, ["number"]).Some?
    ensures IssueNumber(payload) == Get(issue, ["number"]).value
  {
  }

  /** A pull-request payload with no `issue` takes its number from
      `pull_request`, whatever the top-level `number` says. */
  lemma NumberFromPullRequest(payload: Value, pullRequest: Value)
    requires Get(payload, ["issue"]).None?
    requires Get(payload, ["pull_request"]) == Some(pullRequest)
    requires Get(pullRequest, ["number"]).Some?
    ensures IssueNumber(payload) == Get(pullRequest, ["number"]).value
  {
  }

  /** With neither `issue` nor `pull_request`, the number is the
      top-level `number`, or `Undefined` when that is absent too. */
  lemma NumberFromTopLevel(payload: Value)
    requires Get(payload, ["issue"]).None? && Get(payload, ["pull_request"]).None?
    ensures IssueNumber(payload) == Read(payload, ["number"])
  {
  }

  /** The event context object. `payload` is public and may be overwritten
      at any time; each derivation reads its current value. */
  class Context {
    var payload: Value

    /** `eventPayload` is the parsed event file, or `None` when the runner
        names no event file; then the payload is the empty object. */
    constructor (eventPayload: Option<Value>)
      ensures eventPayload.None? ==> payload == EmptyObject
      ensures eventPayload.Some? ==> payload == eventPayload.value
    {
      payload := eventPayload.GetOr(EmptyObject);
    }

    method Repo(overrides: Coordinates := map[]) returns (r: Result<Coordinates, Error>)
      ensures r == RepoCoordinates(payload, overrides)
    {
      r := RepoCoordinates(payload, overrides);
    }

    method Issue(overrides: Coordinates := map[]) returns (r: Result<Coordinates, Error>)
      ensures r == IssueCoordinates(payload, overrides)
    {
      r := IssueCoordinates(payload, overrides);
    }
  }
}

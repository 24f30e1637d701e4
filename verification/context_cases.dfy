/** The event context's documented cases, one lemma per expectation, and a
    session that drives a `Context` object through them. */
module ContextCases {
  import opened Wrappers
  import opened Json
  import opened EventContext

  /** A `repository` object whose owner's login and name are given. */
  function RepositoryObject(login: string, name: string): Value {
    Obj(map["owner" := Obj(map["login" := Str(login)]), "name" := Str(name)])
  }

  /** The fields of the default event payload that the context reads: an
      issue numbered 1 in the repository `JasonEtco/test`. */
  function IssueEvent(): Value {
    Obj(map["repository" := RepositoryObject("JasonEtco", "test"), "issue" := Obj(map["number" := Num(1)])])
  }

  /** A pull-request event: no `issue`, a `pull_request` numbered 2. */
  function PullRequestEvent(): Value {
    Obj(map["pull_request" := Obj(map["number" := Num(2)]), "repository" := RepositoryObject("JasonEtco", "test")])
  }

  /** An event that carries its number at the top level. */
  function TopLevelNumberEvent(): Value {
    Obj(map["number" := Num(2), "repository" := RepositoryObject("JasonEtco", "test")])
  }

  lemma IssueEventRepo()
    ensures RepoCoordinates(IssueEvent()) == Success(map["owner" := Str("JasonEtco"), "repo" := Str("test")])
  {
    RepoFromRepository(IssueEvent(), RepositoryObject("JasonEtco", "test"));
  }

  lemma IssueEventRepoMerge()
    ensures RepoCoordinates(IssueEvent(), map["foo" := Num(1), "bar" := Num(2)]) ==
      Success(map["bar" := Num(2), "foo" := Num(1), "owner" := Str("JasonEtco"), "repo" := Str("test")])
  {
    var overrides := map["foo" := Num(1), "bar" := Num(2)];
    IssueEventRepo();
    OverridesAreOverlaid(IssueEvent(), overrides);
    assert Overlay(map["owner" := Str("JasonEtco"), "repo" := Str("test")], overrides) ==
      map["bar" := Num(2), "foo" := Num(1), "owner" := Str("JasonEtco"), "repo" := Str("test")];
  }

  lemma IssueEventRepoOverride()
    ensures RepoCoordinates(IssueEvent(), map["owner" := Str("muahaha")]) ==
      Success(map["owner" := Str("muahaha"), "repo" := Str("test")])
  {
    var overrides := map["owner" := Str("muahaha")];
    IssueEventRepo();
    OverridesAreOverlaid(IssueEvent(), overrides);
    assert Overlay(map["owner" := Str("JasonEtco"), "repo" := Str("test")], overrides) ==
      map["owner" := Str("muahaha"), "repo" := Str("test")];
  }

  lemma EmptyPayloadUnsupported()
    ensures RepoCoordinates(EmptyObject).Failure?
    ensures Contains(RepoCoordinates(EmptyObject).error.message, "context.repo() is not supported")
    ensures IssueCoordinates(EmptyObject).Failure?
  {
    MissingRepositoryUnsupported(EmptyObject, map[]);
  }

  lemma IssueEventIssue()
    ensures IssueCoordinates(IssueEvent()) ==
      Success(map["owner" := Str("JasonEtco"), "repo" := Str("test"), "number" := Num(1)])
  {
    IssueFromRepository(IssueEvent(), RepositoryObject("JasonEtco", "test"));
    NumberFromIssue(IssueEvent(), Obj(map["number" := Num(1)]));
  }

  lemma IssueEventIssueMerge()
    ensures IssueCoordinates(IssueEvent(), map["foo" := Num(1), "bar" := Num(2)]) ==
      Success(map["bar" := Num(2), "foo" := Num(1), "number" := Num(1), "owner" := Str("JasonEtco"), "repo" := Str("test")])
  {
    var overrides := map["foo" := Num(1), "bar" := Num(2)];
    IssueEventIssue();
    OverridesAreOverlaid(IssueEvent(), overrides);
    assert Overlay(map["owner" := Str("JasonEtco"), "repo" := Str("test"), "number" := Num(1)], overrides) ==
      map["bar" := Num(2), "foo" := Num(1), "number" := Num(1), "owner" := Str("JasonEtco"), "repo" := Str("test")];
  }

  lemma IssueEventIssueOverride()
    ensures IssueCoordinates(IssueEvent(), map["owner" := Str("muahaha"), "number" := Num(5)]) ==
      Success(map["number" := Num(5), "owner" := Str("muahaha"), "repo" := Str("test")])
  {
    var overrides := map["owner" := Str("muahaha"), "number" := Num(5)];
    IssueEventIssue();
    OverridesAreOverlaid(IssueEvent(), overrides);
    assert Overlay(map["owner" := Str("JasonEtco"), "repo" := Str("test"), "number" := Num(1)], overrides) ==
      map["number" := Num(5), "owner" := Str("muahaha"), "repo" := Str("test")];
  }

  /** Issue coordinates of any event in `login/name` whose number is `number`. */
  lemma IssueInRepository(payload: Value, login: string, name: string, number: Value)
    requires Get(payload, RepositoryPath) == Some(RepositoryObject(login, name))
    requires IssueNumber(payload) == number
    ensures IssueCoordinates(payload) ==
      Success(map["number" := number, "owner" := Str(login), "repo" := Str(name)])
  {
    var repository := RepositoryObject(login, name);
    IssueFromRepository(payload, repository);
    assert Read(repository, ["owner", "login"]) == Str(login);
    assert Read(repository, ["name"]) == Str(name);
    assert map["owner" := Str(login), "repo" := Str(name), "number" := number] ==
      map["number" := number, "owner" := Str(login), "repo" := Str(name)];
  }

  lemma PullRequestEventIssue()
    ensures IssueCoordinates(PullRequestEvent()) ==
      Success(map["number" := Num(2), "owner" := Str("JasonEtco"), "repo" := Str("test")])
  {
    assert Get(PullRequestEvent(), ["issue"]).None?;
    NumberFromPullRequest(PullRequestEvent(), Obj(map["number" := Num(2)]));
    IssueInRepository(PullRequestEvent(), "JasonEtco", "test", Num(2));
  }

  lemma TopLevelNumberEventIssue()
    ensures IssueCoordinates(TopLevelNumberEvent()) ==
      Success(map["number" := Num(2), "owner" := Str("JasonEtco"), "repo" := Str("test")])
  {
    NumberFromTopLevel(TopLevelNumberEvent());
    IssueInRepository(TopLevelNumberEvent(), "JasonEtco", "test", Num(2));
  }

  /** One context object taken through the documented uses: built from an
      issue event, queried repeatedly, then given other payloads in place. */
  method Session() {
    var context := new Context(Some(IssueEvent()));
    var first := context.Repo();
    var again := context.Repo();
    IssueEventRepo();
    assert first == again == Success(map["owner" := Str("JasonEtco"), "repo" := Str("test")]);

    var issue := context.Issue(map["owner" := Str("muahaha"), "number" := Num(5)]);
    IssueEventIssueOverride();
    assert issue == Success(map["number" := Num(5), "owner" := Str("muahaha"), "repo" := Str("test")]);

    context.payload := PullRequestEvent();
    issue := context.Issue();
    PullRequestEventIssue();
    assert issue.Success? && issue.value["number"] == Num(2);

    context.payload := EmptyObject;
    var failed := context.Repo();
    EmptyPayloadUnsupported();
    assert failed.Failure?;

    var unconfigured := new Context(None);
    failed := unconfigured.Issue();
    assert unconfigured.payload == EmptyObject && failed.Failure?;
  }
}
